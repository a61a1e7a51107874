/** From single operations to whole batches: a valid batch always commits. */
module LifecycleBatch {
  import opened Refs
  import opened Causal
  import opened LifecycleModel
  import opened LifecycleSafety
  import opened LifecycleIntake
  import opened LifecycleCommit
  import opened LifecycleChanges

  /* ---- new memories ---- */

  lemma NewRecollectionRoot(t0: Tables, d: Desk, c: Change)
    requires DeskOk(t0, d) && c.target == NewRecollection && ValidChange(t0, d, c)
    ensures RootOk(t0, d, Recollection(OwnerOf(d.window), d.window.job, c.application, Trim(c.text), CitedEpisodes(c.basis)), [])
  {
    CitedContents(c.basis);
    forall g | g in CitedEpisodes(c.basis) ensures FormationRoles(t0, g) && g.run.owner == OwnerOf(d.window) {
      assert E(g) in c.basis;
      CitableFacts(t0, d, g);
    }
  }

  function NewOutcomes(c: Change): seq<OutcomeKey> {
    if c.op == Adapt then [] else CitedOutcomes(c.basis)
  }

  lemma DispositionCites(t0: Tables, refs: seq<MemoryRef>, episodes: set<Group>, outcomes: set<OutcomeKey>)
    requires DispositionBasis(t0, refs, episodes, outcomes)
    ensures forall g | g in CitedEpisodes(refs) :: g in episodes
  {
    CitedContents(refs);
    forall g | g in CitedEpisodes(refs) ensures g in episodes {
      var i :| 0 <= i < |refs| && refs[i] == E(g);
    }
  }

  lemma NewSeedEpisodes(t0: Tables, d: Desk, eps: seq<Group>)
    requires DeskOk(t0, d) && forall g | g in eps :: g in Citable(d.window, d.offer)
    ensures forall g | g in eps :: FormationRoles(t0, g) && g.run.owner == OwnerOf(d.window)
  {
    forall g | g in eps ensures FormationRoles(t0, g) && g.run.owner == OwnerOf(d.window) {
      CitableFacts(t0, d, g);
    }
  }

  lemma CitedOne(refs: seq<MemoryRef>)
    requires |refs| == 1 && refs[0].E?
    ensures refs == [E(refs[0].episode)] && CitedEpisodes(refs) == [refs[0].episode]
  {
    assert refs[..0] == [];
  }

  lemma CitedOutcomesStand(t0: Tables, d: Desk, refs: seq<MemoryRef>)
    requires DeskOk(t0, d) && DispositionBasis(t0, refs, Citable(d.window, d.offer), CitableOutcomes(d.window, d.offer))
    ensures forall o | o in CitedOutcomes(refs) :: o in t0.outcomes && NonAgentOutcome(t0, o) && o.group in CitedEpisodes(refs)
  {
    CitedContents(refs);
    forall o | o in CitedOutcomes(refs) ensures o in t0.outcomes && NonAgentOutcome(t0, o) && o.group in CitedEpisodes(refs) {
      var i :| 0 <= i < |refs| && refs[i] == O(o);
      CitableOutcomeFacts(t0, d, o);
    }
  }

  lemma NewSeedRoot(t0: Tables, d: Desk, c: Change)
    requires DeskOk(t0, d) && ValidNewDisposition(t0, d, c)
    ensures RootOk(t0, d, Seed(OwnerOf(d.window), d.window.job, Trim(c.text), CitedEpisodes(c.basis), NewOutcomes(c)), NewOutcomes(c))
  {
    if c.op == Adapt {
      AdaptRoot(t0, d, Trim(c.text), c.basis);
    } else {
      TextRoot(t0, d, Trim(c.text), c.basis);
    }
  }

  lemma AdaptRoot(t0: Tables, d: Desk, text: string, refs: seq<MemoryRef>)
    requires DeskOk(t0, d) && AdaptationBasis(t0, refs, Current(d))
    ensures RootOk(t0, d, Seed(OwnerOf(d.window), d.window.job, text, CitedEpisodes(refs), []), [])
  {
    CitedOne(refs);
    NewSeedEpisodes(t0, d, [refs[0].episode]);
    SeedRootOk(t0, d, text, [refs[0].episode], []);
  }

  lemma TextRoot(t0: Tables, d: Desk, text: string, refs: seq<MemoryRef>)
    requires DeskOk(t0, d) && DispositionBasis(t0, refs, Citable(d.window, d.offer), CitableOutcomes(d.window, d.offer))
    ensures RootOk(t0, d, Seed(OwnerOf(d.window), d.window.job, text, CitedEpisodes(refs), CitedOutcomes(refs)), CitedOutcomes(refs))
  {
    DispositionCites(t0, refs, Citable(d.window, d.offer), CitableOutcomes(d.window, d.offer));
    NewSeedEpisodes(t0, d, CitedEpisodes(refs));
    CitedOutcomesStand(t0, d, refs);
    SealedFrom(t0, CitedEpisodes(refs));
    SeedRootOk(t0, d, text, CitedEpisodes(refs), CitedOutcomes(refs));
  }

  lemma SealedFrom(t: Tables, eps: seq<Group>)
    requires FormationBasis(t, eps)
    ensures SealedBasis(t, eps)
  {
  }

  lemma SeedRootOk(t0: Tables, d: Desk, text: string, eps: seq<Group>, outs: seq<OutcomeKey>)
    requires d.window.episodes != [] && Eligible(t0, eps, outs)
    requires forall g | g in eps :: FormationRoles(t0, g) && g.run.owner == OwnerOf(d.window)
    requires forall o | o in outs :: o in t0.outcomes && NonAgentOutcome(t0, o) && o.group in eps
    ensures RootOk(t0, d, Seed(OwnerOf(d.window), d.window.job, text, eps, outs), outs)
  {
  }

  lemma NewKept(t0: Tables, d: Desk, a: Applied, touched: set<Version>, c: Change) returns (r: Applied)
    requires Batch(t0, d, a, touched) && !c.target.Existing? && ValidChange(t0, d, c)
    ensures ApplyNew(a, d, c) == Some(r) && Mid(t0, d.window, r, touched)
  {
    var owner, text, eps := OwnerOf(d.window), Trim(c.text), CitedEpisodes(c.basis);
    if c.target == NewRecollection {
      NewRecollectionRoot(t0, d, c);
      if TextTaken(a.tables, owner, false, c.application, text, {}) {
        r := a;
      } else {
        r := FormKept(t0, d, a, touched, Recollection(owner, d.window.job, c.application, text, eps), c.application, []);
      }
    } else {
      NewSeedRoot(t0, d, c);
      if TextTaken(a.tables, owner, true, Self, text, {}) {
        r := a;
      } else {
        TakenIgnoresApplication(a.tables, owner, text, {}, Self, DispositionApplication(owner));
        r := FormKept(t0, d, a, touched, Seed(owner, d.window.job, text, eps, NewOutcomes(c)), DispositionApplication(owner), NewOutcomes(c));
      }
    }
  }

  lemma TakenIgnoresApplication(t: Tables, owner: Owner, text: string, except: set<Version>, x: Application, y: Application)
    requires !TextTaken(t, owner, true, x, text, except)
    ensures !TextTaken(t, owner, true, y, text, except)
  {
  }

  /* ---- recollections ---- */

  lemma RecallEpisodes(t0: Tables, d: Desk, v: Version, c: Change)
    requires DeskOk(t0, d) && v in d.recalled && ValidRecollectionChange(d, v, c)
    ensures forall g | g in CitedEpisodes(c.basis) :: FormationRoles(t0, g)
  {
    CitedContents(c.basis);
    forall g | g in CitedEpisodes(c.basis) ensures FormationRoles(t0, g) {
      assert E(g) in c.basis;
      CitableFacts(t0, d, g);
    }
  }

  lemma KeepKept(t0: Tables, w: Window, a: Applied, touched: set<Version>, v: Version, eps: seq<Group>)
    requires w.episodes != [] && Mid(t0, w, a, touched) && v in t0.versions && v.root.Recollection?
    requires forall g | g in eps :: FormationRoles(t0, g)
    ensures Mid(t0, w, a.(tables := a.tables.(basis := a.tables.basis + Links(v, eps, Support))), touched + {v})
  {
    var t' := a.tables.(basis := a.tables.basis + Links(v, eps, Support));
    assert SameRow(t0.versions[v], a.tables.versions[v]);
    SupportRows(t0, a.tables, t', v, eps);
    FormFeeds(a.tables.basis, Links(v, eps, Support));
    AddBasisKeeps(a.tables, t', Links(v, eps, Support));
    MidRows(t0, w, a, touched, t', v);
  }

  lemma SupportRows(t0: Tables, t: Tables, t': Tables, v: Version, eps: seq<Group>)
    requires SameIntake(t0, t) && v in t.versions && v.root.Recollection? && t' == t.(basis := t.basis + Links(v, eps, Support))
    requires forall g | g in eps :: FormationRoles(t0, g)
    ensures NewRowsOk(t, t')
  {
    forall b | b in t'.basis && b !in t.basis ensures BasisOk(t', b) {
      SupportRow(t0, t', v, b.episode);
    }
    NewBasisOk(t, t');
  }

  lemma SupportRow(t0: Tables, t': Tables, v: Version, g: Group)
    requires SameIntake(t0, t') && v in t'.versions && v.root.Recollection? && FormationRoles(t0, g)
    ensures BasisOk(t', Basis(v, g, Support))
  {
    FormationRolesGrow(t0, t', g);
  }

  lemma RecallRevised(t0: Tables, t: Tables, t': Tables, v: Version, text: string, job: Ref, eps: seq<Group>)
    requires LinksOk(t0) && SameIntake(t0, t) && v in t.versions && v.number >= 1 && v.root.Recollection?
    requires t' == AfterRevise(t, v, text, job, eps, []) && forall g | g in eps :: FormationRoles(t0, g)
    ensures NewRowsOk(t, t')
  {
    RevisionRows(t0, t, t', Next(v), eps);
    NewVersionOk(t, t', Next(v));
  }

  lemma RecollectionKept(t0: Tables, d: Desk, a: Applied, touched: set<Version>, v: Version, c: Change) returns (r: Applied)
    requires Batch(t0, d, a, touched) && v in d.recalled && v !in touched && ValidRecollectionChange(d, v, c)
    ensures ApplyRecollection(a, d, v, c) == Some(r) && Mid(t0, d.window, r, touched + {v})
  {
    RecalledFacts(t0, d, v);
    RecallEpisodes(t0, d, v, c);
    StillAsLoaded(t0, d, a, touched, v);
    r := RecalledKept(t0, d, a, touched, v, c);
  }

  lemma RecalledKept(t0: Tables, d: Desk, a: Applied, touched: set<Version>, v: Version, c: Change) returns (r: Applied)
    requires LinksOk(t0) && d.window.episodes != [] && Mid(t0, d.window, a, touched) && v in d.recalled && v in t0.versions
    requires v.root.Recollection? && v.root.owner == OwnerOf(d.window) && SameVersion(t0, a.tables, v)
    requires t0.versions[v].active && t0.versions[v].at < t0.now && d.recalled[v].application == t0.versions[v].application
    requires forall g | g in CitedEpisodes(c.basis) :: FormationRoles(t0, g)
    ensures ApplyRecollection(a, d, v, c) == Some(r) && Mid(t0, d.window, r, touched + {v})
  {
    var eps, text := CitedEpisodes(c.basis), Trim(c.text);
    if c.op == Keep {
      KeepKept(t0, d.window, a, touched, v, eps);
      r := a.(tables := a.tables.(basis := a.tables.basis + Links(v, eps, Support)));
    } else if text == "" || text == d.recalled[v].text || TextTaken(a.tables, v.root.owner, false, d.recalled[v].application, text, {v}) {
      MidMore(t0, d.window, a, touched, touched + {v});
      r := a;
    } else {
      r := RecallRevisionKept(t0, d.window, a, touched, v, text, eps);
    }
  }

  lemma RecallRevisionKept(t0: Tables, w: Window, a: Applied, touched: set<Version>, v: Version, text: string, eps: seq<Group>)
    returns (r: Applied)
    requires LinksOk(t0) && w.episodes != [] && Mid(t0, w, a, touched) && v in t0.versions && v.root.Recollection?
    requires SameVersion(t0, a.tables, v) && t0.versions[v].active && t0.versions[v].at < t0.now && v.root.owner == OwnerOf(w)
    requires !TextTaken(a.tables, v.root.owner, false, t0.versions[v].application, text, {v})
    requires forall g | g in eps :: FormationRoles(t0, g)
    ensures Revise(a, v, text, w.job, eps, []) == Some(r) && Mid(t0, w, r, touched + {v})
  {
    assert Stored(a.tables.versions, v);
    ReviseSucceeds(a, v, text, w.job, eps, []);
    RecallRevised(t0, a.tables, AfterRevise(a.tables, v, text, w.job, eps, []), v, text, w.job, eps);
    ReviseMid(t0, w, a, touched, v, text, eps, []);
    r := Applied(AfterRevise(a.tables, v, text, w.job, eps, []), Note(a.receipt, Next(v)));
  }

  /* ---- feedback ---- */

  lemma TargetEpisodeFacts(t0: Tables, d: Desk, v: Version, g: Group)
    requires DeskOk(t0, d) && v in d.targets && g in d.targets[v].episodes
    ensures FormationRoles(t0, g) && Fed(t0, v, g) && g !in Consumed(t0, v) && g.run.owner == OwnerOf(d.window)
  {
    TargetFacts(t0, d, v);
    assert g in FeedbackEpisodes(t0, d.window, v);
    var k :| k in ChainReceipts(t0, v, g);
    assert Chain(t0, v, g, k);
  }

  lemma TargetOutcomeFacts(t0: Tables, d: Desk, v: Version, o: OutcomeKey)
    requires DeskOk(t0, d) && v in d.targets && o in d.targets[v].outcomes
    ensures Attributed(t0, v, o) && o.group in d.targets[v].episodes
  {
    TargetFacts(t0, d, v);
    assert o in FeedbackOutcomes(t0, d.window, v);
    var k :| k in t0.outcomes[o].deliveries * ChainReceipts(t0, v, o.group);
    assert Chain(t0, v, o.group, k);
  }

  /** What a valid feedback basis cites. */
  ghost predicate Cites(t0: Tables, v: Version, eps: seq<Group>, outs: seq<OutcomeKey>, fresh': set<Group>) {
    && outs != []
    && (forall o | o in outs :: Attributed(t0, v, o) && o.group in eps && o.group in fresh')
    && (forall g | g in eps && g in fresh' :: exists o :: o in outs && o.group == g)
    && (forall g | g in fresh' :: FormationRoles(t0, g) && Fed(t0, v, g) && g !in Consumed(t0, v))
  }

  lemma BasisCites(target: Target, refs: seq<MemoryRef>, allowAnchors: bool)
    requires FeedbackBasis(target, refs, allowAnchors)
    ensures CitedOutcomes(refs) != []
    ensures forall o | o in CitedOutcomes(refs) :: o in target.outcomes && o.group in CitedEpisodes(refs)
    ensures forall g | g in CitedEpisodes(refs) && g in target.episodes :: exists o :: o in CitedOutcomes(refs) && o.group == g
    ensures forall g | g in CitedEpisodes(refs) :: g in target.episodes || (allowAnchors && g in target.anchors)
  {
    CitedContents(refs);
    forall o | o in CitedOutcomes(refs) ensures o in target.outcomes && o.group in CitedEpisodes(refs) {
      var i :| 0 <= i < |refs| && refs[i] == O(o);
      assert E(o.group) in refs;
    }
    forall g | g in CitedEpisodes(refs) && g in target.episodes ensures exists o :: o in CitedOutcomes(refs) && o.group == g {
      var o := EpisodeHasOutcome(target, refs, allowAnchors, g);
      assert O(o) in refs;
    }
    forall g | g in CitedEpisodes(refs) ensures g in target.episodes || (allowAnchors && g in target.anchors) {
      var i :| 0 <= i < |refs| && refs[i] == E(g);
    }
  }

  lemma EpisodeHasOutcome(target: Target, refs: seq<MemoryRef>, allowAnchors: bool, g: Group) returns (o: OutcomeKey)
    requires FeedbackBasis(target, refs, allowAnchors) && E(g) in refs && g in target.episodes
    ensures O(o) in refs && o.group == g
  {
    var i :| 0 <= i < |refs| && refs[i] == E(g);
    var j :| 0 <= j < |refs| && refs[j].O? && refs[j].outcome.group == refs[i].episode;
    o := refs[j].outcome;
  }

  lemma FeedbackCites(t0: Tables, d: Desk, v: Version, eps: seq<Group>, outs: seq<OutcomeKey>)
    requires DeskOk(t0, d) && v in d.targets && outs != []
    requires forall o | o in outs :: o in d.targets[v].outcomes && o.group in eps
    requires forall g | g in eps && g in d.targets[v].episodes :: exists o :: o in outs && o.group == g
    ensures Cites(t0, v, eps, outs, d.targets[v].episodes)
  {
    forall o | o in outs ensures Attributed(t0, v, o) && o.group in d.targets[v].episodes {
      TargetOutcomeFacts(t0, d, v, o);
    }
    forall g | g in d.targets[v].episodes ensures FormationRoles(t0, g) && Fed(t0, v, g) && g !in Consumed(t0, v) {
      TargetEpisodeFacts(t0, d, v, g);
    }
  }

  lemma CitesAll(t0: Tables, v: Version, eps: seq<Group>, outs: seq<OutcomeKey>, all: set<Group>)
    requires Cites(t0, v, eps, outs, all) && forall g | g in eps :: g in all
    ensures Cites(t0, v, eps, outs, set g | g in eps)
  {
  }

  /* ---- inhibition ---- */

  lemma InhibitRows(t0: Tables, t: Tables, t': Tables, v: Version, eps: seq<Group>, outs: seq<OutcomeKey>)
    requires SameIntake(t0, t) && v in t.versions && v.root.Seed? && Cites(t0, v, eps, outs, set g | g in eps)
    requires t' == t.(basis := t.basis + Links(v, eps, Inhibition), outcomeBasis := t.outcomeBasis + OutcomeLinks(v, outs, Inhibition))
    ensures NewRowsOk(t, t')
  {
    forall b | b in t'.basis && b !in t.basis ensures BasisOk(t', b) {
      InhibitRow(t0, t', v, outs, b.episode);
    }
    forall b | b in t'.outcomeBasis && b !in t.outcomeBasis ensures OutcomeBasisOk(t', b) {
      AttributedGrows(t0, t', v, b.outcome);
      assert Basis(v, b.outcome.group, Inhibition) in t'.basis;
    }
  }

  lemma InhibitRow(t0: Tables, t': Tables, v: Version, outs: seq<OutcomeKey>, g: Group)
    requires SameIntake(t0, t') && v in t'.versions && v.root.Seed? && FormationRoles(t0, g) && Fed(t0, v, g)
    requires OutcomeLinks(v, outs, Inhibition) <= t'.outcomeBasis && exists o :: o in outs && o.group == g
    ensures BasisOk(t', Basis(v, g, Inhibition))
  {
    FormationRolesGrow(t0, t', g);
    FedGrows(t0, t', v, g);
    var o :| o in outs && o.group == g;
    assert OutcomeBasis(v, o, Inhibition) in t'.outcomeBasis;
  }

  lemma InhibitFeeds(t0: Tables, t: Tables, v: Version, eps: seq<Group>)
    requires FeedOnce(t.basis) && (forall b | b in t.basis && b.version == v :: b in t0.basis)
    requires forall g | g in eps :: g !in Consumed(t0, v)
    ensures FeedOnce(t.basis + Links(v, eps, Inhibition))
  {
    forall b | b in t.basis && b.version == v && b.role in {Reenactment, Inhibition} ensures b.episode !in eps {
      assert b.episode in Consumed(t0, v);
    }
  }

  lemma InhibitKept(t0: Tables, d: Desk, a: Applied, touched: set<Version>, v: Version, c: Change)
    requires Batch(t0, d, a, touched) && v in d.targets && v !in touched && FeedbackBasis(d.targets[v], c.basis, false)
    ensures Mid(t0, d.window, ApplyInhibit(a, v, CitedEpisodes(c.basis), CitedOutcomes(c.basis)), touched + {v})
  {
    var eps, outs := CitedEpisodes(c.basis), CitedOutcomes(c.basis);
    TargetFacts(t0, d, v);
    StillAsLoaded(t0, d, a, touched, v);
    BasisCites(d.targets[v], c.basis, false);
    FeedbackCites(t0, d, v, eps, outs);
    CitesAll(t0, v, eps, outs, d.targets[v].episodes);
    InhibitMid(t0, d.window, a, touched, v, eps, outs);
  }

  lemma InhibitMid(t0: Tables, w: Window, a: Applied, touched: set<Version>, v: Version, eps: seq<Group>, outs: seq<OutcomeKey>)
    requires w.episodes != [] && Mid(t0, w, a, touched) && v in t0.versions && SameVersion(t0, a.tables, v) && v.root.Seed?
    requires Cites(t0, v, eps, outs, set g | g in eps)
    ensures Mid(t0, w, ApplyInhibit(a, v, eps, outs), touched + {v})
  {
    var t' := ApplyInhibit(a, v, eps, outs).tables;
    InhibitRows(t0, a.tables, t', v, eps, outs);
    InhibitFeeds(t0, a.tables, v, eps);
    AddRowsKeeps(a.tables, t', Links(v, eps, Inhibition), OutcomeLinks(v, outs, Inhibition));
    MidRows(t0, w, a, touched, t', v);
  }

  /* ---- reenactment ---- */

  lemma ReenactOne(basis: set<Basis>, v: Version, g: Group)
    requires FeedOnce(basis)
    requires forall b | b in basis && b.version == v && b.episode == g :: b.role !in {Reenactment, Inhibition}
    requires forall b | b in basis && b.version == v && b.role == Reenactment :: b.episode.run != g.run
    ensures FeedOnce(basis + {Basis(v, g, Reenactment)})
  {
  }

  /** Reenactment appends a subset of the cited Episodes, one per run. */
  lemma {:induction false} ReenactSpec(t: Tables, v: Version, eps: seq<Group>) returns (more: set<Basis>)
    requires FeedOnce(t.basis) && forall g | g in eps :: g !in Consumed(t, v)
    ensures more <= Links(v, eps, Reenactment) && ReenactAll(t, v, eps) == t.(basis := t.basis + more)
    ensures FeedOnce(t.basis + more)
    decreases |eps|
  {
    if eps == [] {
      more := {};
      assert t.basis + more == t.basis;
    } else {
      var n := |eps| - 1;
      var g := eps[n];
      more := ReenactSpec(t, v, eps[..n]);
      var t' := ReenactAll(t, v, eps[..n]);
      if forall h | h in BasisIn(t', v, {Reenactment}) :: h.run != g.run {
        ReenactFresh(t, t', v, more, g);
        ReenactOne(t'.basis, v, g);
        assert t.basis + (more + {Basis(v, g, Reenactment)}) == t'.basis + {Basis(v, g, Reenactment)};
        more := more + {Basis(v, g, Reenactment)};
      }
    }
  }

  lemma ReenactFresh(t: Tables, t': Tables, v: Version, more: set<Basis>, g: Group)
    requires t'.basis == t.basis + more && g !in Consumed(t, v)
    requires forall b | b in more :: b.version == v && b.role == Reenactment
    requires forall h | h in BasisIn(t', v, {Reenactment}) :: h.run != g.run
    ensures forall b | b in t'.basis && b.version == v && b.role == Reenactment :: b.episode.run != g.run
    ensures forall b | b in t'.basis && b.version == v && b.episode == g :: b.role !in {Reenactment, Inhibition}
  {
    forall b | b in t'.basis && b.version == v && b.role == Reenactment ensures b.episode.run != g.run {
      assert b.episode in BasisIn(t', v, {Reenactment});
    }
    forall b | b in t'.basis && b.version == v && b.episode == g ensures b.role !in {Reenactment, Inhibition} {
      assert b in t.basis && b.role in {Reenactment, Inhibition} ==> b.episode in Consumed(t, v);
    }
  }

  lemma ReenactRows(t0: Tables, t: Tables, t': Tables, v: Version, eps: seq<Group>, more: set<Basis>)
    requires SameIntake(t0, t) && v in t.versions && v.root.Seed? && t' == t.(basis := t.basis + more) && more <= Links(v, eps, Reenactment)
    requires forall g | g in eps :: FormationRoles(t0, g) && Fed(t0, v, g)
    ensures NewRowsOk(t, t')
  {
    forall b | b in t'.basis && b !in t.basis ensures BasisOk(t', b) {
      ReenactRow(t0, t', v, b.episode);
    }
    NewBasisOk(t, t');
  }

  lemma ReenactRow(t0: Tables, t': Tables, v: Version, g: Group)
    requires SameIntake(t0, t') && v in t'.versions && v.root.Seed? && FormationRoles(t0, g) && Fed(t0, v, g)
    ensures BasisOk(t', Basis(v, g, Reenactment))
  {
    FormationRolesGrow(t0, t', g);
    FedGrows(t0, t', v, g);
  }

  lemma ReenactMid(t0: Tables, w: Window, a: Applied, touched: set<Version>, v: Version, eps: seq<Group>)
    requires w.episodes != [] && Mid(t0, w, a, touched) && v in t0.versions && SameVersion(t0, a.tables, v) && v.root.Seed?
    requires forall g | g in eps :: FormationRoles(t0, g) && Fed(t0, v, g) && g !in Consumed(t0, v)
    ensures Mid(t0, w, a.(tables := ReenactAll(a.tables, v, eps)), touched + {v})
  {
    SameConsumed(t0, a.tables, v);
    var more := ReenactSpec(a.tables, v, eps);
    var t' := ReenactAll(a.tables, v, eps);
    ReenactRows(t0, a.tables, t', v, eps, more);
    AddBasisKeeps(a.tables, t', more);
    MidRows(t0, w, a, touched, t', v);
  }

  lemma SameConsumed(t0: Tables, t: Tables, v: Version)
    requires v in t0.versions && SameVersion(t0, t, v) && t0.basis <= t.basis
    ensures Consumed(t, v) == Consumed(t0, v) && Anchors(t, v) == Anchors(t0, v)
  {
  }

  lemma ReenactCites(t0: Tables, d: Desk, v: Version, refs: seq<MemoryRef>)
    requires DeskOk(t0, d) && v in d.targets && OnlyEpisodes(refs, d.targets[v].episodes)
    ensures forall g | g in CitedEpisodes(refs) :: FormationRoles(t0, g) && Fed(t0, v, g) && g !in Consumed(t0, v)
  {
    CitedContents(refs);
    forall g | g in CitedEpisodes(refs) ensures FormationRoles(t0, g) && Fed(t0, v, g) && g !in Consumed(t0, v) {
      var i :| 0 <= i < |refs| && refs[i] == E(g);
      TargetEpisodeFacts(t0, d, v, g);
    }
  }

  lemma ReenactKept(t0: Tables, d: Desk, a: Applied, touched: set<Version>, v: Version, c: Change)
    requires Batch(t0, d, a, touched) && v in d.targets && v !in touched && OnlyEpisodes(c.basis, d.targets[v].episodes)
    ensures Mid(t0, d.window, ApplyReenact(a, v, CitedEpisodes(c.basis)), touched + {v})
  {
    TargetFacts(t0, d, v);
    StillAsLoaded(t0, d, a, touched, v);
    ReenactCites(t0, d, v, c.basis);
    ReenactMid(t0, d.window, a, touched, v, CitedEpisodes(c.basis));
    if ApplyReenact(a, v, CitedEpisodes(c.basis)) == a {
      MidMore(t0, d.window, a, touched, touched + {v});
    }
  }

  /* ---- revising a disposition ---- */

  /** An active version's successor has no rows yet. */
  ghost predicate Unborn(t: Tables, v: Version) {
    && v.number >= 1 && (forall b | b in t.basis :: b.version != Next(v)) && (forall b | b in t.outcomeBasis :: b.version != Next(v))
  }

  lemma ActiveIsLast(t: Tables, v: Version)
    requires MemoryOk(t) && v in t.versions && t.versions[v].active
    ensures Unborn(t, v)
  {
    assert Stored(t.versions, v);
    NoRowsYet(t, Next(v));
  }

  lemma AdaptRows(t0: Tables, t: Tables, t': Tables, v: Version, text: string, job: Ref, g: Group)
    requires LinksOk(t0) && SameIntake(t0, t) && v in t.versions && v.root.Seed? && Unborn(t, v)
    requires t' == AfterRevise(t, v, text, job, [g], []) && FormationRoles(t0, g) && SituationBy(t0, g, true) && g.run.owner == v.root.owner
    ensures NewRowsOk(t, t')
  {
    AdaptReason(t0, t, t', v, text, job, g);
    RevisionRow(t0, t', Next(v), g);
    AdaptRow(t, t', Next(v), g);
  }

  lemma AdaptRow(t: Tables, t': Tables, next: Version, g: Group)
    requires next in t'.versions && t'.versions[next].at <= t'.now && next.number >= 2 && BasisOk(t', Basis(next, g, Revision))
    requires t'.basis == t.basis + Links(next, [g], Revision) && t'.outcomeBasis == t.outcomeBasis
    requires forall v | v in t'.versions && v !in t.versions :: v == next
    ensures NewRowsOk(t, t')
  {
    forall b | b in t'.basis && b !in t.basis ensures BasisOk(t', b) {
      assert b in Links(next, [g], Revision) && b == Basis(next, g, Revision);
    }
    NewVersionOk(t, t', next);
  }

  lemma NewVersionOk(t: Tables, t': Tables, next: Version)
    requires next in t'.versions && t'.versions[next].at <= t'.now && next.number >= 2
    requires forall v | v in t'.versions && v !in t.versions :: v == next
    requires forall b | b in t'.basis && b !in t.basis :: BasisOk(t', b)
    requires forall b | b in t'.outcomeBasis && b !in t.outcomeBasis :: OutcomeBasisOk(t', b)
    ensures NewRowsOk(t, t')
  {
  }

  lemma TextRows(t0: Tables, t: Tables, t': Tables, v: Version, text: string, job: Ref, eps: seq<Group>, outs: seq<OutcomeKey>, fresh': set<Group>)
    requires LinksOk(t0) && SameIntake(t0, t) && v in t.versions && v.root.Seed? && Unborn(t, v)
    requires t' == AfterRevise(t, v, text, job, eps, outs) && Cites(t0, v, eps, outs, fresh')
    requires forall g | g in eps :: g in fresh' || g in Anchors(t, v)
    requires forall g | g in eps :: FormationRoles(t0, g)
    ensures NewRowsOk(t, t')
  {
    TextReasons(t0, t, t', v, text, job, eps, outs, fresh');
    RevisionRows(t0, t, t', Next(v), eps);
    RevisionOutcomeRows(t0, t, t', v, eps, outs);
    NewVersionOk(t, t', Next(v));
  }

  lemma TextReasons(t0: Tables, t: Tables, t': Tables, v: Version, text: string, job: Ref, eps: seq<Group>, outs: seq<OutcomeKey>, fresh': set<Group>)
    requires v in t.versions && Unborn(t, v) && t' == AfterRevise(t, v, text, job, eps, outs) && Cites(t0, v, eps, outs, fresh')
    requires forall g | g in eps :: g in fresh' || g in Anchors(t, v)
    ensures forall g | g in eps :: RevisionReason(t', Next(v), g)
  {
    forall g | g in eps ensures RevisionReason(t', Next(v), g) {
      TextReason(t, t', v, text, job, eps, outs, g);
    }
  }

  lemma AdaptFacts(t0: Tables, d: Desk, v: Version, c: Change) returns (g: Group)
    requires DeskOk(t0, d) && v in d.targets && c.op == Adapt && ValidDispositionChange(t0, d, v, c)
    ensures c.basis == [E(g)] && CitedEpisodes(c.basis) == [g]
    ensures FormationRoles(t0, g) && SituationBy(t0, g, true) && g.run.owner == v.root.owner
  {
    g := AdaptCites(t0, d, v, c);
    DirectFacts(t0, d, v, g);
  }

  lemma AdaptCites(t0: Tables, d: Desk, v: Version, c: Change) returns (g: Group)
    requires d.window.episodes != [] && v in d.targets && c.op == Adapt && ValidDispositionChange(t0, d, v, c)
    ensures c.basis == [E(g)] && CitedEpisodes(c.basis) == [g] && g in d.targets[v].direct
  {
    g := c.basis[0].episode;
    CitedOne(c.basis);
  }

  lemma DirectFacts(t0: Tables, d: Desk, v: Version, g: Group)
    requires DeskOk(t0, d) && v in d.targets && g in d.targets[v].direct
    ensures FormationRoles(t0, g) && SituationBy(t0, g, true) && g.run.owner == v.root.owner
  {
    TargetFacts(t0, d, v);
    assert g in DirectEpisodes(t0, d.window);
  }

  lemma AnchorFacts(t0: Tables, d: Desk, v: Version, eps: seq<Group>)
    requires DeskOk(t0, d) && v in d.targets
    requires forall g | g in eps :: g in d.targets[v].episodes || g in d.targets[v].anchors
    ensures forall g | g in eps :: FormationRoles(t0, g) && (g in d.targets[v].episodes || g in Anchors(t0, v))
  {
    TargetFacts(t0, d, v);
    forall g | g in eps ensures FormationRoles(t0, g) {
      if g in d.targets[v].episodes {
        TargetEpisodeFacts(t0, d, v, g);
      }
    }
  }

  lemma AdaptKept(t0: Tables, d: Desk, a: Applied, touched: set<Version>, v: Version, c: Change) returns (r: Applied)
    requires Batch(t0, d, a, touched) && v in d.targets && v !in touched && c.op == Adapt && ValidDispositionChange(t0, d, v, c)
    requires !TextTaken(a.tables, v.root.owner, true, Self, c.text, {v})
    ensures Revise(a, v, c.text, d.window.job, CitedEpisodes(c.basis), []) == Some(r) && Mid(t0, d.window, r, touched + {v})
  {
    TargetFacts(t0, d, v);
    StillAsLoaded(t0, d, a, touched, v);
    var g := AdaptFacts(t0, d, v, c);
    ActiveIsLast(a.tables, v);
    AdaptRows(t0, a.tables, AfterRevise(a.tables, v, c.text, d.window.job, [g], []), v, c.text, d.window.job, g);
    TakenIgnoresApplication(a.tables, v.root.owner, c.text, {v}, Self, a.tables.versions[v].application);
    ReviseSucceeds(a, v, c.text, d.window.job, [g], []);
    ReviseMid(t0, d.window, a, touched, v, c.text, [g], []);
    r := Applied(AfterRevise(a.tables, v, c.text, d.window.job, [g], []), Note(a.receipt, Next(v)));
  }

  /** What a valid behavioral revision cites. */
  ghost predicate TextCites(t0: Tables, d: Desk, v: Version, eps: seq<Group>, outs: seq<OutcomeKey>) {
    && v in d.targets && Cites(t0, v, eps, outs, d.targets[v].episodes)
    && forall g | g in eps :: FormationRoles(t0, g) && (g in d.targets[v].episodes || g in Anchors(t0, v))
  }

  lemma TextBasis(t0: Tables, d: Desk, v: Version, refs: seq<MemoryRef>)
    requires DeskOk(t0, d) && v in d.targets && FeedbackBasis(d.targets[v], refs, true)
    ensures TextCites(t0, d, v, CitedEpisodes(refs), CitedOutcomes(refs))
  {
    BasisCites(d.targets[v], refs, true);
    FeedbackCites(t0, d, v, CitedEpisodes(refs), CitedOutcomes(refs));
    AnchorFacts(t0, d, v, CitedEpisodes(refs));
  }

  lemma TextKept(t0: Tables, d: Desk, a: Applied, touched: set<Version>, v: Version, text: string, eps: seq<Group>, outs: seq<OutcomeKey>)
    returns (r: Applied)
    requires Batch(t0, d, a, touched) && v !in touched && TextCites(t0, d, v, eps, outs)
    requires !TextTaken(a.tables, v.root.owner, true, Self, text, {v})
    ensures Revise(a, v, text, d.window.job, eps, outs) == Some(r) && Mid(t0, d.window, r, touched + {v})
  {
    TargetFacts(t0, d, v);
    StillAsLoaded(t0, d, a, touched, v);
    SameConsumed(t0, a.tables, v);
    ActiveIsLast(a.tables, v);
    TextRows(t0, a.tables, AfterRevise(a.tables, v, text, d.window.job, eps, outs), v, text, d.window.job, eps, outs, d.targets[v].episodes);
    TakenIgnoresApplication(a.tables, v.root.owner, text, {v}, Self, a.tables.versions[v].application);
    ReviseSucceeds(a, v, text, d.window.job, eps, outs);
    ReviseMid(t0, d.window, a, touched, v, text, eps, outs);
    r := Applied(AfterRevise(a.tables, v, text, d.window.job, eps, outs), Note(a.receipt, Next(v)));
  }

  lemma AdaptRevisionKept(t0: Tables, d: Desk, a: Applied, touched: set<Version>, v: Version, c: Change) returns (r: Applied)
    requires Batch(t0, d, a, touched) && v in d.targets && v !in touched && c.op == Adapt && ValidDispositionChange(t0, d, v, c)
    ensures ApplyRevision(a, d, v, c) == Some(r) && Mid(t0, d.window, r, touched + {v})
  {
    if c.text == "" || c.text == d.targets[v].text || TextTaken(a.tables, v.root.owner, true, Self, c.text, {v}) {
      r := a;
      MidMore(t0, d.window, a, touched, touched + {v});
    } else {
      r := AdaptKept(t0, d, a, touched, v, c);
    }
  }

  lemma RevisionIs(a: Applied, d: Desk, v: Version, c: Change, r: Applied)
    requires v in d.targets && c.op != Adapt && c.text != "" && c.text != d.targets[v].text
    requires !TextTaken(a.tables, v.root.owner, true, Self, c.text, {v})
    requires Revise(a, v, c.text, d.window.job, CitedEpisodes(c.basis), CitedOutcomes(c.basis)) == Some(r)
    ensures ApplyRevision(a, d, v, c) == Some(r)
  {
  }

  lemma TextRevisionKept(t0: Tables, d: Desk, a: Applied, touched: set<Version>, v: Version, c: Change) returns (r: Applied)
    requires Batch(t0, d, a, touched) && v !in touched && c.op == TextOp
    requires TextCites(t0, d, v, CitedEpisodes(c.basis), CitedOutcomes(c.basis))
    ensures ApplyRevision(a, d, v, c) == Some(r) && Mid(t0, d.window, r, touched + {v})
  {
    if c.text == "" || c.text == d.targets[v].text || TextTaken(a.tables, v.root.owner, true, Self, c.text, {v}) {
      r := a;
      MidMore(t0, d.window, a, touched, touched + {v});
    } else {
      r := TextKept(t0, d, a, touched, v, c.text, CitedEpisodes(c.basis), CitedOutcomes(c.basis));
      RevisionIs(a, d, v, c, r);
    }
  }

  lemma DispositionKept(t0: Tables, d: Desk, a: Applied, touched: set<Version>, v: Version, c: Change) returns (r: Applied)
    requires Batch(t0, d, a, touched) && v in d.targets && v !in touched && ValidDispositionChange(t0, d, v, c)
    ensures ApplyDisposition(a, d, v, c) == Some(r) && Mid(t0, d.window, r, touched + {v})
  {
    if c.op == Reenact {
      ReenactKept(t0, d, a, touched, v, c);
      r := ApplyReenact(a, v, CitedEpisodes(c.basis));
    } else if c.op == Inhibit {
      InhibitKept(t0, d, a, touched, v, c);
      r := ApplyInhibit(a, v, CitedEpisodes(c.basis), CitedOutcomes(c.basis));
    } else if c.op == Adapt {
      r := AdaptRevisionKept(t0, d, a, touched, v, c);
    } else {
      TextBasis(t0, d, v, c.basis);
      r := TextRevisionKept(t0, d, a, touched, v, c);
    }
  }

  /* ---- the whole batch ---- */

  function Touched(changes: seq<Change>): set<Version> {
    set i | 0 <= i < |changes| && changes[i].target.Existing? && changes[i].target.ref.V? :: changes[i].target.ref.version
  }

  lemma TouchedOne(c: Change)
    requires c.target.Existing? && c.target.ref.V?
    ensures Touched([c]) == {c.target.ref.version}
  {
    assert [c][0] == c;
  }

  lemma ChangeKept(t0: Tables, d: Desk, a: Applied, touched: set<Version>, c: Change) returns (r: Applied)
    requires Batch(t0, d, a, touched) && ValidChange(t0, d, c)
    requires c.target.Existing? && c.target.ref.V? ==> c.target.ref.version !in touched
    ensures ApplyChange(a, d, c) == Some(r) && Mid(t0, d.window, r, touched + Touched([c]))
  {
    if c.target.Existing? {
      r := ExistingKept(t0, d, a, touched, c);
    } else {
      r := NewKept(t0, d, a, touched, c);
      MidMore(t0, d.window, r, touched, touched + Touched([c]));
    }
  }

  lemma ExistingKept(t0: Tables, d: Desk, a: Applied, touched: set<Version>, c: Change) returns (r: Applied)
    requires Batch(t0, d, a, touched) && ValidChange(t0, d, c) && c.target.Existing?
    requires c.target.ref.V? ==> c.target.ref.version !in touched
    ensures ApplyChange(a, d, c) == Some(r) && Mid(t0, d.window, r, touched + Touched([c]))
  {
    var v := c.target.ref.version;
    TouchedOne(c);
    if v in d.recalled {
      r := RecollectionKept(t0, d, a, touched, v, c);
    } else {
      r := DispositionKept(t0, d, a, touched, v, c);
    }
  }

  lemma ValidPrefix(t0: Tables, d: Desk, changes: seq<Change>)
    requires d.window.episodes != [] && ValidChanges(t0, d, changes) && changes != []
    ensures var n := |changes| - 1;
            && ValidChanges(t0, d, changes[..n]) && ValidChange(t0, d, changes[n])
            && (changes[n].target.Existing? && changes[n].target.ref.V? ==> changes[n].target.ref.version !in Touched(changes[..n]))
  {
    var n := |changes| - 1;
    forall i | 0 <= i < n ensures ValidChange(t0, d, changes[..n][i]) {
      assert changes[..n][i] == changes[i];
    }
  }

  /** Every valid batch applies to the end. */
  lemma {:induction false} BatchKept(t0: Tables, d: Desk, changes: seq<Change>) returns (r: Applied)
    requires Begun(t0, d) && ValidChanges(t0, d, changes)
    ensures ApplyAll(Applied(t0, Receipt({}, {})), d, changes) == Some(r) && Mid(t0, d.window, r, Touched(changes))
    decreases |changes|
  {
    if changes == [] {
      MidStart(t0, d.window);
      r := Applied(t0, Receipt({}, {}));
    } else {
      var n := |changes| - 1;
      ValidPrefix(t0, d, changes);
      var before := BatchKept(t0, d, changes[..n]);
      TouchedSnoc(changes);
      r := ChangeKept(t0, d, before, Touched(changes[..n]), changes[n]);
    }
  }

  lemma TouchedSnoc(changes: seq<Change>)
    requires changes != []
    ensures var n := |changes| - 1;
            Touched(changes) == Touched(changes[..n]) + Touched([changes[n]])
  {
    var n := |changes| - 1;
    assert [changes[n]][0] == changes[n];
    forall v | v in Touched(changes) ensures v in Touched(changes[..n]) + Touched([changes[n]]) {
      var i :| 0 <= i < |changes| && changes[i].target.Existing? && changes[i].target.ref.V? && changes[i].target.ref.version == v;
      assert i < n ==> changes[..n][i] == changes[i];
    }
    forall v | v in Touched(changes[..n]) ensures v in Touched(changes) {
      var i :| 0 <= i < n && changes[..n][i].target.Existing? && changes[..n][i].target.ref.V? && changes[..n][i].target.ref.version == v;
      assert changes[i] == changes[..n][i];
    }
    forall v | v in Touched([changes[n]]) ensures v in Touched(changes) {
      assert changes[n].target.ref.version == v;
    }
  }
}
