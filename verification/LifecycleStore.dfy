/** The lifecycle transactions as they run: guarded loops over the request, then
    in-place inserts, each tied to its transaction function. */
module LifecycleStore {
  import opened Refs
  import opened Causal
  import opened LifecycleModel
  import LifecycleCommit

  /* ---- feedback basis ---- */

  datatype Classified = Classified(episodes: seq<Group>, outcomes: seq<OutcomeKey>, valid: bool)

  predicate CitedFrom(target: Target, ref: MemoryRef, allowAnchors: bool) {
    || (ref.E? && (ref.episode in target.episodes || (allowAnchors && ref.episode in target.anchors)))
    || (ref.O? && ref.outcome in target.outcomes)
  }

  /** classifyFeedbackBasis */
  method ClassifyFeedbackBasis(target: Target, refs: seq<MemoryRef>, allowAnchors: bool) returns (r: Classified)
    ensures r.valid <==> forall i :: 0 <= i < |refs| ==> CitedFrom(target, refs[i], allowAnchors)
    ensures r.valid ==> r.episodes == CitedEpisodes(refs) && r.outcomes == CitedOutcomes(refs)
  {
    var episodes, outcomes := [], [];
    for i := 0 to |refs|
      invariant forall k :: 0 <= k < i ==> CitedFrom(target, refs[k], allowAnchors)
      invariant episodes == CitedEpisodes(refs[..i]) && outcomes == CitedOutcomes(refs[..i])
    {
      assert refs[..i + 1][..i] == refs[..i];
      var ref := refs[i];
      if ref.E? && ref.episode in target.episodes {
        episodes := episodes + [ref.episode];
      } else if allowAnchors && ref.E? && ref.episode in target.anchors {
        episodes := episodes + [ref.episode];
      } else if ref.O? && ref.outcome in target.outcomes {
        outcomes := outcomes + [ref.outcome];
      } else {
        return Classified([], [], false);
      }
    }
    assert refs[..|refs|] == refs;
    r := Classified(episodes, outcomes, true);
  }

  /** Cited feedback Episodes and cited Outcomes match one another. */
  predicate Matches(target: Target, eps: seq<Group>, outs: seq<OutcomeKey>) {
    && (exists i :: 0 <= i < |eps| && eps[i] in target.episodes)
    && (forall j :: 0 <= j < |outs| ==> outs[j].group in eps && outs[j].group in target.episodes)
    && (forall i :: 0 <= i < |eps| && eps[i] in target.episodes ==> exists j :: 0 <= j < |outs| && outs[j].group == eps[i])
  }

  /** exactFeedbackEpisodeOutcomeMatch: mark the cited Episodes, then require every
      mark to be set. */
  method ExactMatch(target: Target, eps: seq<Group>, outs: seq<OutcomeKey>) returns (ok: bool)
    ensures ok <==> Matches(target, eps, outs)
  {
    var matched: map<Group, bool> := map[];
    for i := 0 to |eps|
      invariant forall g :: g in matched <==> g in eps[..i] && g in target.episodes
      invariant forall g :: g in matched ==> !matched[g]
    {
      assert eps[..i + 1] == eps[..i] + [eps[i]];
      if eps[i] in target.episodes {
        matched := matched[eps[i] := false];
      }
    }
    assert eps[..|eps|] == eps;
    ghost var marked := matched.Keys;
    if matched == map[] {
      forall i | 0 <= i < |eps| ensures eps[i] !in target.episodes {
        assert eps[i] in eps;
      }
      return false;
    }
    for j := 0 to |outs|
      invariant matched.Keys == marked
      invariant forall k :: 0 <= k < j ==> outs[k].group in marked
      invariant forall g :: g in marked ==> (matched[g] <==> exists k :: 0 <= k < j && outs[k].group == g)
    {
      var g := outs[j].group;
      if g !in matched {
        return false;
      }
      matched := matched[g := true];
    }
    ok := forall g :: g in matched ==> matched[g];
    assert forall i :: 0 <= i < |eps| && eps[i] in target.episodes ==> eps[i] in marked;
    assert forall g :: g in marked ==> g in eps;
    MarkedExists(eps, marked, target);
  }

  lemma MarkedExists(eps: seq<Group>, marked: set<Group>, target: Target)
    requires marked != {} && forall g :: g in marked <==> g in eps && g in target.episodes
    ensures exists i :: 0 <= i < |eps| && eps[i] in target.episodes
  {
    var g :| g in marked;
    var i :| 0 <= i < |eps| && eps[i] == g;
  }

  /** The two loops together decide exactly the feedback basis, for any target
      whose Outcomes belong to its feedback Episodes. */
  lemma FeedbackBasisIff(target: Target, refs: seq<MemoryRef>, allowAnchors: bool)
    requires forall o | o in target.outcomes :: o.group in target.episodes
    ensures FeedbackBasis(target, refs, allowAnchors) <==>
            && (forall i :: 0 <= i < |refs| ==> CitedFrom(target, refs[i], allowAnchors))
            && CitedEpisodes(refs) != [] && CitedOutcomes(refs) != [] && Matches(target, CitedEpisodes(refs), CitedOutcomes(refs))
  {
    LifecycleCommit.CitedContents(refs);
    var eps, outs := CitedEpisodes(refs), CitedOutcomes(refs);
    if FeedbackBasis(target, refs, allowAnchors) {
      FeedbackBasisMatches(target, refs, allowAnchors);
    } else if (forall i :: 0 <= i < |refs| ==> CitedFrom(target, refs[i], allowAnchors)) && outs != [] && Matches(target, eps, outs) {
      MatchesFeedbackBasis(target, refs, allowAnchors);
    }
  }

  lemma FeedbackBasisMatches(target: Target, refs: seq<MemoryRef>, allowAnchors: bool)
    requires FeedbackBasis(target, refs, allowAnchors) && forall o | o in target.outcomes :: o.group in target.episodes
    ensures CitedEpisodes(refs) != [] && Matches(target, CitedEpisodes(refs), CitedOutcomes(refs))
  {
    var eps, outs := CitedEpisodes(refs), CitedOutcomes(refs);
    SomeEpisodeCited(target, refs, allowAnchors);
    forall j | 0 <= j < |outs| ensures outs[j].group in eps && outs[j].group in target.episodes {
      OutcomeMatches(target, refs, allowAnchors, outs[j]);
    }
    forall j | 0 <= j < |eps| && eps[j] in target.episodes ensures exists k :: 0 <= k < |outs| && outs[k].group == eps[j] {
      EpisodeMatches(target, refs, allowAnchors, eps[j]);
    }
  }

  lemma SomeEpisodeCited(target: Target, refs: seq<MemoryRef>, allowAnchors: bool)
    requires FeedbackBasis(target, refs, allowAnchors)
    ensures exists i :: 0 <= i < |CitedEpisodes(refs)| && CitedEpisodes(refs)[i] in target.episodes
  {
    LifecycleCommit.CitedContents(refs);
    var i :| 0 <= i < |refs| && refs[i].E? && refs[i].episode in target.episodes;
    assert E(refs[i].episode) in refs && refs[i].episode in CitedEpisodes(refs);
  }

  lemma OutcomeMatches(target: Target, refs: seq<MemoryRef>, allowAnchors: bool, o: OutcomeKey)
    requires FeedbackBasis(target, refs, allowAnchors) && o in CitedOutcomes(refs)
    requires forall x | x in target.outcomes :: x.group in target.episodes
    ensures o.group in CitedEpisodes(refs) && o.group in target.episodes
  {
    LifecycleCommit.CitedContents(refs);
    var k :| 0 <= k < |refs| && refs[k] == O(o);
    assert E(refs[k].outcome.group) in refs;
  }

  lemma EpisodeMatches(target: Target, refs: seq<MemoryRef>, allowAnchors: bool, g: Group)
    requires FeedbackBasis(target, refs, allowAnchors) && g in CitedEpisodes(refs) && g in target.episodes
    ensures exists k :: 0 <= k < |CitedOutcomes(refs)| && CitedOutcomes(refs)[k].group == g
  {
    LifecycleCommit.CitedContents(refs);
    var x :| 0 <= x < |refs| && refs[x] == E(g);
    var y :| 0 <= y < |refs| && refs[y].O? && refs[y].outcome.group == refs[x].episode;
    assert O(refs[y].outcome) in refs && refs[y].outcome in CitedOutcomes(refs);
  }

  lemma MatchesFeedbackBasis(target: Target, refs: seq<MemoryRef>, allowAnchors: bool)
    requires forall i :: 0 <= i < |refs| ==> CitedFrom(target, refs[i], allowAnchors)
    requires CitedOutcomes(refs) != [] && Matches(target, CitedEpisodes(refs), CitedOutcomes(refs))
    ensures FeedbackBasis(target, refs, allowAnchors)
  {
    SomeFeedbackEpisode(target, refs);
    forall k | 0 <= k < |refs| && refs[k].O? ensures E(refs[k].outcome.group) in refs {
      OutcomeHasEpisode(target, refs, k);
    }
    forall k | 0 <= k < |refs| && refs[k].E? && refs[k].episode in target.episodes
      ensures exists j :: 0 <= j < |refs| && refs[j].O? && refs[j].outcome.group == refs[k].episode
    {
      EpisodeHasOutcome(target, refs, k);
    }
  }

  lemma SomeFeedbackEpisode(target: Target, refs: seq<MemoryRef>)
    requires Matches(target, CitedEpisodes(refs), CitedOutcomes(refs))
    ensures exists i :: 0 <= i < |refs| && refs[i].E? && refs[i].episode in target.episodes
  {
    LifecycleCommit.CitedContents(refs);
    var eps := CitedEpisodes(refs);
    var i :| 0 <= i < |eps| && eps[i] in target.episodes;
    assert eps[i] in eps && E(eps[i]) in refs;
  }

  lemma OutcomeHasEpisode(target: Target, refs: seq<MemoryRef>, k: nat)
    requires Matches(target, CitedEpisodes(refs), CitedOutcomes(refs)) && k < |refs| && refs[k].O?
    ensures E(refs[k].outcome.group) in refs
  {
    var eps, outs, o := CitedEpisodes(refs), CitedOutcomes(refs), refs[k].outcome;
    LifecycleCommit.CitedContents(refs);
    assert O(o) in refs && o in outs;
    MatchedGroup(target, eps, outs, o);
  }

  lemma MatchedGroup(target: Target, eps: seq<Group>, outs: seq<OutcomeKey>, o: OutcomeKey)
    requires Matches(target, eps, outs) && o in outs
    ensures o.group in eps
  {
    var j :| 0 <= j < |outs| && outs[j] == o;
  }

  lemma EpisodeHasOutcome(target: Target, refs: seq<MemoryRef>, k: nat)
    requires Matches(target, CitedEpisodes(refs), CitedOutcomes(refs)) && k < |refs| && refs[k].E? && refs[k].episode in target.episodes
    ensures exists j :: 0 <= j < |refs| && refs[j].O? && refs[j].outcome.group == refs[k].episode
  {
    LifecycleCommit.CitedContents(refs);
    var eps, outs := CitedEpisodes(refs), CitedOutcomes(refs);
    assert E(refs[k].episode) in refs && refs[k].episode in eps;
    var x :| 0 <= x < |eps| && eps[x] == refs[k].episode;
    var y :| 0 <= y < |outs| && outs[y].group == eps[x];
    assert outs[y] in outs && O(outs[y]) in refs;
  }

  /** The check made for INHIBIT and TEXT, before and again while applying. */
  method ValidFeedbackBasis(target: Target, refs: seq<MemoryRef>, allowAnchors: bool) returns (ok: bool)
    requires forall o | o in target.outcomes :: o.group in target.episodes
    ensures ok <==> FeedbackBasis(target, refs, allowAnchors)
  {
    FeedbackBasisIff(target, refs, allowAnchors);
    var c := ClassifyFeedbackBasis(target, refs, allowAnchors);
    if !c.valid || c.episodes == [] || c.outcomes == [] {
      return false;
    }
    ok := ExactMatch(target, c.episodes, c.outcomes);
  }

  /* ---- formation basis ---- */

  predicate Enumerates(t: Tables, listed: map<Group, seq<Link>>, g: Group) {
    && g in listed && Unique(listed[g])
    && (forall l | l in listed[g] :: l in t.links && l.group == g) && (forall l | l in t.links && l.group == g :: l in listed[g])
  }

  function SourceId(l: Link): (Ref, Ref) {
    (l.group.run.session, l.source)
  }

  predicate IdsDiffer(done: seq<Link>) {
    forall x, y :: 0 <= x < y < |done| ==> SourceId(done[x]) != SourceId(done[y])
  }

  lemma DuplicateRefutes(t: Tables, eps: seq<Group>, l: Link, m: Link)
    requires l in t.links && m in t.links && l != m && l.group in eps && m.group in eps && SourceId(l) == SourceId(m)
    ensures !FormationBasis(t, eps)
  {
  }

  ghost function Ids(done: seq<Link>): set<(Ref, Ref)> {
    set x | 0 <= x < |done| :: SourceId(done[x])
  }

  lemma IdsSnoc(done: seq<Link>, l: Link)
    ensures Ids(done + [l]) == Ids(done) + {SourceId(l)}
    ensures IdsDiffer(done + [l]) <==> IdsDiffer(done) && SourceId(l) !in Ids(done)
  {
    var all := done + [l];
    assert all[|done|] == l;
    assert forall x :: 0 <= x < |done| ==> all[x] == done[x];
  }

  lemma {:induction false} PrefixDiffers(done: seq<Link>, more: seq<Link>)
    requires IdsDiffer(done + more)
    ensures IdsDiffer(done)
  {
    assert forall x :: 0 <= x < |done| ==> (done + more)[x] == done[x];
  }

  /** The sources of one Episode join those already seen, or one is seen twice. */
  method AddSources(links: seq<Link>, seen: set<(Ref, Ref)>, ghost done: seq<Link>) returns (ok: bool, all: set<(Ref, Ref)>)
    requires seen == Ids(done) && IdsDiffer(done)
    ensures ok <==> IdsDiffer(done + links)
    ensures ok ==> all == Ids(done + links)
  {
    all := seen;
    assert done + links[..0] == done;
    for j := 0 to |links|
      invariant all == Ids(done + links[..j]) && IdsDiffer(done + links[..j])
    {
      IdsSnoc(done + links[..j], links[j]);
      assert done + links[..j] + [links[j]] == done + links[..j + 1];
      if SourceId(links[j]) in all {
        assert done + links == (done + links[..j + 1]) + links[j + 1..];
        if IdsDiffer(done + links) {
          PrefixDiffers(done + links[..j + 1], links[j + 1..]);
        }
        return false, all;
      }
      all := all + {SourceId(links[j])};
    }
    assert links[..|links|] == links;
    ok := true;
  }

  /** eligibleFormationBasis: one pass over the cited Episodes and their sources. */
  method EligibleFormationBasis(t: Tables, eps: seq<Group>, listed: map<Group, seq<Link>>) returns (ok: bool)
    requires forall g | g in eps :: Enumerates(t, listed, g)
    ensures ok <==> FormationBasis(t, eps)
  {
    if |eps| < 2 || !Unique(eps) {
      return false;
    }
    var sessions: set<Ref>;
    ghost var done: seq<Link>;
    ok, sessions, done := ScanEpisodes(t, eps, listed);
    if ok {
      ok := |sessions| >= 2;
      AllPassed(t, eps, done);
    }
  }

  method ScanEpisodes(t: Tables, eps: seq<Group>, listed: map<Group, seq<Link>>)
    returns (ok: bool, sessions: set<Ref>, ghost done: seq<Link>)
    requires Unique(eps) && forall g | g in eps :: Enumerates(t, listed, g)
    ensures ok ==> sessions == Sessions(eps) && ScannedAll(t, eps, done)
    ensures !ok ==> !FormationBasis(t, eps)
  {
    var seen: set<(Ref, Ref)> := {};
    ok, sessions, done := true, {}, [];
    NoneScanned(t, eps);
    for i := 0 to |eps|
      invariant ScannedTo(t, eps, i, seen, sessions, done) && ok
    {
      assert eps[i] in eps;
      ok, seen, done := CiteEpisode(t, eps, i, listed, seen, done);
      if !ok {
        return;
      }
      OneScanned(t, eps, i, seen, sessions, done);
      sessions := sessions + {eps[i].run.session};
    }
    AllScanned(t, eps, seen, sessions, done);
  }

  /** The first n Episodes passed, with these ids, sessions and links. */
  ghost predicate ScannedTo(t: Tables, eps: seq<Group>, n: nat, seen: set<(Ref, Ref)>, sessions: set<Ref>, done: seq<Link>)
    requires n <= |eps|
  {
    Scanned(t, eps[..n], seen, done) && sessions == Sessions(eps[..n])
  }

  lemma NoneScanned(t: Tables, eps: seq<Group>)
    ensures ScannedTo(t, eps, 0, {}, {}, [])
  {
  }

  lemma OneScanned(t: Tables, eps: seq<Group>, i: nat, seen: set<(Ref, Ref)>, sessions: set<Ref>, done: seq<Link>)
    requires i < |eps| && sessions == Sessions(eps[..i]) && Scanned(t, eps[..i + 1], seen, done)
    ensures ScannedTo(t, eps, i + 1, seen, sessions + {eps[i].run.session}, done)
  {
    SessionsSnoc(eps[..i], eps[i]);
    assert eps[..i + 1] == eps[..i] + [eps[i]];
  }

  lemma AllScanned(t: Tables, eps: seq<Group>, seen: set<(Ref, Ref)>, sessions: set<Ref>, done: seq<Link>)
    requires ScannedTo(t, eps, |eps|, seen, sessions, done)
    ensures sessions == Sessions(eps) && ScannedAll(t, eps, done)
  {
    assert eps[..|eps|] == eps;
  }

  ghost predicate ScannedAll(t: Tables, eps: seq<Group>, done: seq<Link>) {
    var whole := Experienced(t, eps) && IdsDiffer(done) && Collected(t, eps, done);
    whole
  }

  ghost predicate Scanned(t: Tables, eps: seq<Group>, seen: set<(Ref, Ref)>, done: seq<Link>) {
    seen == Ids(done) && ScannedAll(t, eps, done)
  }

  /** One cited Episode: its roles, its Situation's actor, then its sources. */
  method CiteEpisode(t: Tables, eps: seq<Group>, i: nat, listed: map<Group, seq<Link>>, seen: set<(Ref, Ref)>, ghost done: seq<Link>)
    returns (ok: bool, all: set<(Ref, Ref)>, ghost now: seq<Link>)
    requires i < |eps| && Unique(eps) && Enumerates(t, listed, eps[i]) && Scanned(t, eps[..i], seen, done)
    ensures ok ==> Scanned(t, eps[..i + 1], all, now)
    ensures !ok ==> !FormationBasis(t, eps)
  {
    var g := eps[i];
    all, now := seen, done;
    ok := FormationRoles(t, g) && SituationBy(t, g, false);
    if !ok {
      MissingRefutes(t, eps, i);
      return;
    }
    ok, all := AddSources(listed[g], seen, done);
    if !ok {
      SharedRefutes(t, eps, i, done, listed);
      return;
    }
    NextEpisode(t, eps, i);
    NextDone(t, eps, i, done, listed);
    now := done + listed[g];
  }

  lemma MissingRefutes(t: Tables, eps: seq<Group>, i: nat)
    requires i < |eps| && !(FormationRoles(t, eps[i]) && SituationBy(t, eps[i], false))
    ensures !FormationBasis(t, eps)
  {
  }

  function Sessions(eps: seq<Group>): set<Ref> {
    set k | 0 <= k < |eps| :: eps[k].run.session
  }

  ghost predicate Collected(t: Tables, eps: seq<Group>, done: seq<Link>) {
    forall l :: l in done <==> l in t.links && l.group in eps
  }

  lemma NextEpisode(t: Tables, eps: seq<Group>, i: nat)
    requires i < |eps| && Experienced(t, eps[..i]) && FormationRoles(t, eps[i]) && SituationBy(t, eps[i], false)
    ensures Experienced(t, eps[..i + 1])
  {
    var before, next := eps[..i], eps[..i + 1];
    forall k | 0 <= k < |next| ensures FormationRoles(t, next[k]) && SituationBy(t, next[k], false) {
      assert k < i ==> next[k] == before[k];
    }
  }

  lemma SessionsSnoc(eps: seq<Group>, g: Group)
    ensures Sessions(eps + [g]) == Sessions(eps) + {g.run.session}
  {
    var all := eps + [g];
    assert all[|eps|] == g;
    assert forall k :: 0 <= k < |eps| ==> all[k] == eps[k];
  }

  lemma AllPassed(t: Tables, eps: seq<Group>, done: seq<Link>)
    requires |eps| >= 2 && Unique(eps) && ScannedAll(t, eps, done)
    ensures |Sessions(eps)| >= 2 <==> FormationBasis(t, eps)
  {
    SessionsCount(eps, Sessions(eps));
    DistinctSources(t, eps, done);
  }

  lemma NextDone(t: Tables, eps: seq<Group>, i: nat, done: seq<Link>, listed: map<Group, seq<Link>>)
    requires i < |eps| && Collected(t, eps[..i], done) && Enumerates(t, listed, eps[i])
    ensures Collected(t, eps[..i + 1], done + listed[eps[i]])
  {
    assert eps[..i + 1] == eps[..i] + [eps[i]];
  }

  /** Two cited links with one id refute eligibility. */
  lemma SharedRefutes(t: Tables, eps: seq<Group>, i: nat, done: seq<Link>, listed: map<Group, seq<Link>>)
    requires i < |eps| && Unique(eps) && Enumerates(t, listed, eps[i]) && Collected(t, eps[..i], done)
    requires IdsDiffer(done) && !IdsDiffer(done + listed[eps[i]])
    ensures !FormationBasis(t, eps)
  {
    var links := listed[eps[i]];
    var all := done + links;
    var x, y :| 0 <= x < y < |all| && SourceId(all[x]) == SourceId(all[y]);
    var m := |done|;
    assert y >= m;
    assert all[y] == links[y - m] && all[y] in links;
    if x < m {
      assert all[x] == done[x] && all[x] in done;
      assert all[x].group in eps[..i];
    } else {
      assert all[x] == links[x - m] && all[x] in links;
    }
    DuplicateRefutes(t, eps, all[x], all[y]);
  }

  lemma DistinctSources(t: Tables, eps: seq<Group>, done: seq<Link>)
    requires IdsDiffer(done) && forall l :: l in done <==> l in t.links && l.group in eps
    ensures SourcesDiffer(t, eps)
  {
    forall l, m | l in t.links && m in t.links && l != m && l.group in eps && m.group in eps
      ensures !(l.group.run.session == m.group.run.session && l.source == m.source)
    {
      var x :| 0 <= x < |done| && done[x] == l;
      var y :| 0 <= y < |done| && done[y] == m;
      assert SourceId(l) != SourceId(m);
    }
  }

  lemma SessionsCount(eps: seq<Group>, sessions: set<Ref>)
    requires eps != [] && sessions == set k | 0 <= k < |eps| :: eps[k].run.session
    ensures |sessions| >= 2 <==> exists i, j :: 0 <= i < |eps| && 0 <= j < |eps| && eps[i].run.session != eps[j].run.session
  {
    var a := eps[0].run.session;
    assert a in sessions;
    if i, j :| 0 <= i < |eps| && 0 <= j < |eps| && eps[i].run.session != eps[j].run.session {
      SubsetSize({eps[i].run.session, eps[j].run.session}, sessions);
    } else {
      assert sessions == {a};
    }
  }

  /* ---- the store ---- */

  function SetOf<T>(s: seq<T>): set<T> {
    set x | x in s
  }

  datatype Verdict = Recorded | Replay | Conflicting | Invalid

  /** loadDeliverableMemoryRefs */
  method DeliverableRefs(row: ContextRow) returns (allowed: set<MemoryRef>)
    ensures forall m :: m in allowed <==> Deliverable(row, m)
  {
    allowed := {};
    if row.request.constitution.Some? {
      allowed := {row.request.constitution.value.ref};
    }
    ghost var first := allowed;
    for i := 0 to |row.items|
      invariant forall m :: m in allowed <==> m in first || exists k :: 0 <= k < i && m == V(row.items[k].version)
    {
      allowed := allowed + {V(row.items[i].version)};
    }
    ghost var second := allowed;
    for i := 0 to |row.evidence|
      invariant forall m :: m in allowed <==> m in second || exists k :: 0 <= k < i && m == E(row.evidence[k].episode)
    {
      allowed := allowed + {E(row.evidence[i].episode)};
    }
  }

  /** buildMemoryContext: one pass over the activations. */
  method BuildMemoryContext(r: SelectRequest, picks: seq<Pick>, evidence: seq<Exhibit>) returns (c: MemoryContext)
    ensures c == BuildContext(r, picks, evidence)
  {
    var recollections: seq<Memory> := [];
    var dispositions: seq<Memory> := [];
    for i := 0 to |picks|
      invariant recollections == Activated(picks[..i], false) && dispositions == Activated(picks[..i], true)
    {
      assert picks[..i + 1][..i] == picks[..i];
      var memory := Memory(V(picks[i].version), picks[i].text, picks[i].application);
      if picks[i].version.root.Recollection? {
        recollections := recollections + [memory];
      } else {
        dispositions := dispositions + [memory];
      }
    }
    assert picks[..|picks|] == picks;
    c := MemoryContext(r, r.constitution, recollections, dispositions, evidence);
  }

  datatype SemanticKind = ConstitutionKind | RecollectionKind | DispositionKind | EvidenceKind

  function KindOf(v: Version): SemanticKind {
    if v.root.Seed? then DispositionKind else RecollectionKind
  }

  /** The kinds claimed so far: the Constitution's, and those of memories read. */
  predicate Claims(kinds: map<MemoryRef, SemanticKind>, constitution: Option<Norm>) {
    && (constitution.Some? ==> constitution.value.ref in kinds && kinds[constitution.value.ref] == ConstitutionKind)
    && forall m | m in kinds ::
         || (constitution.Some? && m == constitution.value.ref)
         || (m.V? && kinds[m] == KindOf(m.version)) || (m.E? && kinds[m] == EvidenceKind)
  }

  /** loadMemoryContext, claiming each ref's kind as it goes. */
  method LoadMemoryContext(t: Tables, r: SelectRequest) returns (loaded: Loaded)
    ensures loaded == LoadContext(t, r)
  {
    if r.run !in t.contexts {
      return Fresh;
    }
    var row := t.contexts[r.run];
    if row.request != r || !(forall i :: 0 <= i < |row.items| ==> row.items[i].version in t.versions) {
      return Conflict;
    }
    var recollections, dispositions, kinds, ok := ReadItems(t, r, row.items);
    if !ok {
      return Ambiguous;
    }
    ok := ClaimEvidence(r, kinds, row.evidence);
    if !ok {
      return Ambiguous;
    }
    loaded := Frozen(MemoryContext(r, r.constitution, recollections, dispositions, row.evidence));
  }

  predicate ItemsClear(r: SelectRequest, items: seq<Item>) {
    r.constitution.Some? ==> forall i :: 0 <= i < |items| ==> V(items[i].version) != r.constitution.value.ref
  }

  method ReadItems(t: Tables, r: SelectRequest, items: seq<Item>)
    returns (recollections: seq<Memory>, dispositions: seq<Memory>, kinds: map<MemoryRef, SemanticKind>, ok: bool)
    requires forall i :: 0 <= i < |items| ==> items[i].version in t.versions
    ensures ok <==> ItemsClear(r, items)
    ensures ok ==> recollections == Memories(t, items, false) && dispositions == Memories(t, items, true) && Claims(kinds, r.constitution)
  {
    recollections, dispositions, kinds := [], [], map[];
    if r.constitution.Some? {
      kinds := map[r.constitution.value.ref := ConstitutionKind];
    }
    for i := 0 to |items|
      invariant recollections == Memories(t, items[..i], false) && dispositions == Memories(t, items[..i], true)
      invariant Claims(kinds, r.constitution) && ItemsClear(r, items[..i])
    {
      assert items[..i + 1][..i] == items[..i];
      var v := items[i].version;
      if V(v) in kinds && kinds[V(v)] != KindOf(v) {
        return recollections, dispositions, kinds, false;
      }
      kinds := kinds[V(v) := KindOf(v)];
      if v.root.Recollection? {
        recollections := recollections + [ItemMemory(t, v)];
      } else {
        dispositions := dispositions + [ItemMemory(t, v)];
      }
    }
    assert items[..|items|] == items;
    ok := true;
  }

  method ClaimEvidence(r: SelectRequest, claimed: map<MemoryRef, SemanticKind>, evidence: seq<Exhibit>) returns (ok: bool)
    requires Claims(claimed, r.constitution)
    ensures ok <==> (r.constitution.Some? ==> forall i :: 0 <= i < |evidence| ==> E(evidence[i].episode) != r.constitution.value.ref)
  {
    var kinds := claimed;
    for i := 0 to |evidence|
      invariant Claims(kinds, r.constitution)
      invariant r.constitution.Some? ==> forall k :: 0 <= k < i ==> E(evidence[k].episode) != r.constitution.value.ref
    {
      var ref := E(evidence[i].episode);
      if ref in kinds && kinds[ref] != EvidenceKind {
        return false;
      }
      kinds := kinds[ref := EvidenceKind];
    }
    ok := true;
  }

  /** ValidateOutcomeReport */
  predicate ValidReport(e: Event, b: Binding, deliveries: seq<DeliveryKey>, related: seq<Ref>) {
    Unique(deliveries) && Unique(related) && ValidEvent(e) && Complete(b) && ValidBinding(e, b)
  }

  /** The row of the key was written by this very request. */
  predicate SameReport(t: Tables, key: Ref, e: Event, run: Ref, group: Ref, deliveries: set<DeliveryKey>, related: set<Ref>) {
    var o := OutcomeKey(GroupOf(e, Binding(run, group, OutcomeRole)), e.key.ref, key);
    && o in t.outcomes && t.outcomes[o] == OutcomeRow(deliveries, related, t.outcomes[o].at)
    && e.key in t.sources && t.sources[e.key] == e.source
  }

  class Store {
    var sources: Sources
    var links: map<Link, nat>
    var contexts: map<Run, ContextRow>
    var deliveries: map<DeliveryKey, DeliveryRow>
    var outcomes: map<OutcomeKey, OutcomeRow>
    var versions: map<Version, VersionRow>
    var basis: set<Basis>
    var outcomeBasis: set<OutcomeBasis>
    var receipts: map<ReceiptKey, Window>
    var returned: map<ReceiptKey, Receipt>
    var shown: map<Run, MemoryContext>
    var now: nat

    function View(): Tables
      reads this
    {
      Tables(sources, links, contexts, deliveries, outcomes, versions, basis, outcomeBasis, receipts, returned, shown, now)
    }

    /** The rows a transaction leaves behind. */
    method Write(t: Tables)
      modifies this
      ensures View() == t
    {
      WriteIntake(t);
      versions, basis, outcomeBasis := t.versions, t.basis, t.outcomeBasis;
      receipts, returned := t.receipts, t.returned;
    }

    method WriteIntake(t: Tables)
      modifies this`sources, this`links, this`contexts, this`deliveries, this`outcomes, this`shown, this`now
      ensures sources == t.sources && links == t.links && contexts == t.contexts && deliveries == t.deliveries
      ensures outcomes == t.outcomes && shown == t.shown && now == t.now
    {
      sources, links, contexts, deliveries := t.sources, t.links, t.contexts, t.deliveries;
      outcomes, shown, now := t.outcomes, t.shown, t.now;
    }

    /** Observe, after its idempotency key was claimed. */
    method ObserveEvent(e: Event, b: Binding) returns (r: Result<Option<Group>>)
      modifies this
      ensures View() == Settle(old(View()), ObserveTx(old(View()), e, b))
      ensures r.Err? <==> ObserveTx(old(View()), e, b).None?
      ensures r.Ok? && r.value.Some? ==> Materialized(links.Keys, r.value.value)
    {
      var observed := Observe(sources, links.Keys, e, b);
      if observed.Err? {
        return Err(observed.error);
      }
      var t := View();
      Write(t.(sources := observed.value.sources, links := Stamp(t, observed.value.links), now := t.now + 1));
      r := Ok(observed.value.episode);
    }

    /** SelectMemory around an already ranked selection. */
    method SelectMemory(request: SelectRequest, picks: seq<Pick>, evidence: seq<Exhibit>) returns (loaded: Loaded)
      modifies this
      ensures View() == Settle(old(View()), SelectTx(old(View()), request, picks, evidence))
      ensures !old(LoadContext(View(), request)).Fresh? ==> loaded == old(LoadContext(View(), request)) && View() == old(View())
      ensures loaded.Frozen? && old(LoadContext(View(), request)).Fresh? ==> request.run in shown && loaded.context == shown[request.run]
    {
      var t := View();
      loaded := LoadMemoryContext(t, request);
      var selectable := Selectable(t, request, picks, evidence);
      if !loaded.Fresh? || !selectable {
        return;
      }
      var built := BuildMemoryContext(request, picks, evidence);
      Write(t.(contexts := t.contexts[request.run := ContextRow(request, Rows(picks), evidence, t.now)],
               shown := t.shown[request.run := built], now := t.now + 1));
      loaded := Frozen(built);
    }

    /** RecordMemoryDelivery */
    method RecordMemoryDelivery(key: Ref, run: Run, context: SelectRequest, refs: seq<MemoryRef>) returns (r: Verdict)
      modifies this
      ensures var k, memories := DeliveryKey(run.owner.tenant, key), SetOf(refs);
              && View() == (if Unique(refs) then Settle(old(View()), DeliverTx(old(View()), key, run, context, memories)) else old(View()))
              && (r == Recorded <==> Unique(refs) && DeliverTx(old(View()), key, run, context, memories).Some?)
              && (r == Replay <==> Unique(refs) && refs != [] && k in old(deliveries)
                                   && old(deliveries)[k] == DeliveryRow(run, context, memories, old(deliveries)[k].at))
              && (r == Conflicting <==> Unique(refs) && refs != [] && k in old(deliveries) && r != Replay)
    {
      if refs == [] || !Unique(refs) {
        return Invalid;
      }
      var k, memories := DeliveryKey(run.owner.tenant, key), SetOf(refs);
      assert refs[0] in memories;
      if k in deliveries {
        return if deliveries[k] == DeliveryRow(run, context, memories, deliveries[k].at) then Replay else Conflicting;
      }
      var acted := Acted(View(), run);
      if acted || run !in contexts || contexts[run].request != context {
        return Invalid;
      }
      var allowed := DeliverableRefs(contexts[run]);
      for i := 0 to |refs|
        invariant View() == old(View())
        invariant forall j :: 0 <= j < i ==> refs[j] in allowed
      {
        if refs[i] !in allowed {
          assert refs[i] in memories;
          return Invalid;
        }
      }
      deliveries := deliveries[k := DeliveryRow(run, context, memories, now)];
      now := now + 1;
      r := Recorded;
    }

    /** validateOutcomeBindings */
    method ValidateBindings(g: Group, deliveryRefs: seq<DeliveryKey>, relatedRefs: seq<Ref>) returns (ok: bool)
      ensures ok <==> BindingsOk(View(), g, SetOf(deliveryRefs), SetOf(relatedRefs))
    {
      var t := View();
      for i := 0 to |deliveryRefs|
        invariant forall j :: 0 <= j < i ==> deliveryRefs[j] in t.deliveries && t.deliveries[deliveryRefs[j]].run == g.run
      {
        if deliveryRefs[i] !in t.deliveries || t.deliveries[deliveryRefs[i]].run != g.run {
          assert deliveryRefs[i] in SetOf(deliveryRefs);
          return false;
        }
      }
      for i := 0 to |relatedRefs|
        invariant forall j :: 0 <= j < i ==> exists l :: l in t.links && l.group == g && l.source == relatedRefs[j]
      {
        var found := exists l :: l in t.links && l.group == g && l.source == relatedRefs[i];
        if !found {
          assert relatedRefs[i] in SetOf(relatedRefs);
          return false;
        }
      }
      var hasAct := exists x | x in relatedRefs :: Link(g, x, AgentAct) in t.links;
      ok := deliveryRefs == [] || hasAct;
      assert deliveryRefs != [] ==> deliveryRefs[0] in SetOf(deliveryRefs);
    }

    /** ReportOutcome: the report's own shape, then the key, then the bindings; a
        key used before is answered from its row. */
    method ReportOutcome(key: Ref, e: Event, run: Ref, group: Ref, deliveryRefs: seq<DeliveryKey>, relatedRefs: seq<Ref>) returns (r: Verdict)
      modifies this
      ensures var ds, rs := SetOf(deliveryRefs), SetOf(relatedRefs);
              var valid := ValidReport(e, Binding(run, group, OutcomeRole), deliveryRefs, relatedRefs);
              && View() == (if valid then Settle(old(View()), OutcomeTx(old(View()), key, e, run, group, ds, rs)) else old(View()))
              && (r == Recorded <==> valid && OutcomeTx(old(View()), key, e, run, group, ds, rs).Some?)
              && (r == Replay <==> valid && OutcomeKeyUsed(old(View()), e.key.owner.tenant, key)
                                   && SameReport(old(View()), key, e, run, group, ds, rs))
              && (r == Conflicting <==> valid && OutcomeKeyUsed(old(View()), e.key.owner.tenant, key) && r != Replay)
    {
      var b := Binding(run, group, OutcomeRole);
      var g := GroupOf(e, b);
      var o := OutcomeKey(g, e.key.ref, key);
      var t := View();
      if !ValidReport(e, b, deliveryRefs, relatedRefs) {
        return Invalid;
      }
      var used := OutcomeKeyUsed(t, e.key.owner.tenant, key);
      if used {
        var same := SameReport(t, key, e, run, group, SetOf(deliveryRefs), SetOf(relatedRefs));
        return if same then Replay else Conflicting;
      }
      var ok := ValidateBindings(g, deliveryRefs, relatedRefs);
      var observed := Observe(t.sources, t.links.Keys, e, b);
      if !ok || observed.Err? {
        return Invalid;
      }
      Write(t.(sources := observed.value.sources, links := Stamp(t, observed.value.links),
               outcomes := t.outcomes[o := OutcomeRow(SetOf(deliveryRefs), SetOf(relatedRefs), t.now)], now := t.now + 1));
      r := Recorded;
    }

    /** The commit transaction of ConsolidateWindow; a failed one changes nothing. */
    method Commit(w: Window, offer: Offer, snap: Snapshot, changes: seq<Change>) returns (r: Committed)
      modifies this
      ensures r == CommitTx(old(View()), w, offer, snap, changes)
      ensures View() == if r.Done? then r.tables else old(View())
    {
      var t := View();
      var early := Examine(t, w, offer, snap);
      if early.Some? {
        return early.value;
      }
      var d := Desk(w, snap.targets, snap.recalled, offer);
      var applied := ApplyChanges(d, Chosen(t, d, changes));
      if applied.None? {
        return Aborted;
      }
      Write(FreezeReceipt(applied.value, w));
      r := Done(FreezeReceipt(applied.value, w));
    }

    /** The loop over the batch, on the transaction's own view of the tables. */
    method ApplyChanges(d: Desk, changes: seq<Change>) returns (r: Option<Applied>)
      requires d.window.episodes != []
      ensures r == ApplyAll(Applied(View(), Receipt({}, {})), d, changes)
    {
      var start := Applied(View(), Receipt({}, {}));
      var current := start;
      for i := 0 to |changes|
        invariant ApplyAll(start, d, changes[..i]) == Some(current)
      {
        var next := ApplyChange(current, d, changes[i]);
        assert changes[..i + 1][..i] == changes[..i];
        if next.None? {
          AbortPersists(start, d, changes, i + 1);
          return None;
        }
        current := next.value;
      }
      assert changes[..|changes|] == changes;
      r := Some(current);
    }
  }

  lemma {:induction false} AbortPersists(a: Applied, d: Desk, changes: seq<Change>, n: nat)
    requires d.window.episodes != [] && n <= |changes| && ApplyAll(a, d, changes[..n]).None?
    ensures ApplyAll(a, d, changes).None?
    decreases |changes| - n
  {
    if n < |changes| {
      assert changes[..n + 1][..n] == changes[..n];
      AbortPersists(a, d, changes, n + 1);
    } else {
      assert changes[..n] == changes;
    }
  }
}
