/** A run that ends in a window which no longer loads: an Agent's Seed is delivered
    to one of its relationships, revised there from an attributed Outcome, and then
    carries an anchor of the relationship. */
module LifecycleWitness {
  import opened Refs
  import opened Causal
  import opened LifecycleModel
  import opened LifecycleSafety
  import opened LifecycleIntake
  import opened LifecycleCommit
  import opened LifecycleTheorems
  import LifecycleResults
  import opened LifecycleAnchors

  /* ---- runs step by step ---- */

  lemma AfterObserve(s: State, e: Event, b: Binding, t': Tables) returns (s': State)
    requires Reachable(s) && Settle(s.tables, ObserveTx(s.tables, e, b)) == t'
    ensures Reachable(s') && s'.tables == t'
  {
    ReachableNext(s, ObserveStep(e, b));
    s' := Do(s, ObserveStep(e, b));
  }

  lemma AfterSelect(s: State, r: SelectRequest, picks: seq<Pick>, t': Tables) returns (s': State)
    requires Reachable(s) && Settle(s.tables, SelectTx(s.tables, r, picks, [])) == t'
    ensures Reachable(s') && s'.tables == t'
  {
    ReachableNext(s, SelectStep(r, picks, []));
    s' := Do(s, SelectStep(r, picks, []));
  }

  lemma AfterDeliver(s: State, key: Ref, run: Run, context: SelectRequest, memories: set<MemoryRef>, t': Tables) returns (s': State)
    requires Reachable(s) && Settle(s.tables, DeliverTx(s.tables, key, run, context, memories)) == t'
    ensures Reachable(s') && s'.tables == t'
  {
    ReachableNext(s, DeliverStep(key, run, context, memories));
    s' := Do(s, DeliverStep(key, run, context, memories));
  }

  lemma AfterOutcome(s: State, key: Ref, e: Event, run: Ref, group: Ref, deliveries: set<DeliveryKey>, related: set<Ref>, t': Tables)
    returns (s': State)
    requires Reachable(s) && Settle(s.tables, OutcomeTx(s.tables, key, e, run, group, deliveries, related)) == t'
    ensures Reachable(s') && s'.tables == t'
  {
    ReachableNext(s, OutcomeStep(key, e, run, group, deliveries, related));
    s' := Do(s, OutcomeStep(key, e, run, group, deliveries, related));
  }

  /* ---- what is said ---- */

  const Alone := Owner(false, "t", "a", "")
  const Bond := Owner(true, "t", "a", "r")
  const First := Group(Run(Alone, "s", "1"), "g")
  const Second := Group(Run(Bond, "s", "2"), "g")

  function Said(owner: Owner, ref: Ref, actor: Actor, who: Ref): Event {
    Event(SourceKey(owner, "s", ref), Source(actor, who, "x", Constitution("", "")))
  }

  lemma ShortRef(s: string)
    requires |s| == 1
    ensures ByteLength(s) <= 4 && ValidStableRef(s)
  {
    assert s[1..] == "";
  }

  lemma SaidOk(owner: Owner, ref: Ref, actor: Actor, who: Ref)
    requires (owner == Alone || owner == Bond) && |ref| == 1 && |who| == 1 && actor != UnknownActor
    ensures ValidEvent(Said(owner, ref, actor, who))
  {
    ShortRef("t");
    ShortRef("a");
    ShortRef("r");
    ShortRef("s");
    ShortRef("x");
    ShortRef(ref);
    ShortRef(who);
  }

  lemma BoundOk(owner: Owner, ref: Ref, actor: Actor, who: Ref, run: Ref, role: Role)
    requires (owner == Alone || owner == Bond) && |run| == 1 && role != UnknownRole
    requires role == AgentAct ==> actor == AgentActor && who == "a"
    ensures ValidBinding(Said(owner, ref, actor, who), Binding(run, "g", role)) && Complete(Binding(run, "g", role))
  {
    ShortRef("g");
    ShortRef(run);
  }

  lemma Observed(t: Tables, e: Event, b: Binding) returns (t': Tables)
    requires ValidEvent(e) && ValidBinding(e, b) && Complete(b) && e.key !in t.sources && !Materialized(t.links.Keys, GroupOf(e, b))
    ensures Settle(t, ObserveTx(t, e, b)) == t'
    ensures t' == t.(sources := t.sources[e.key := e.source], links := t'.links, now := t'.now)
    ensures t'.links.Keys == t.links.Keys + {Link(GroupOf(e, b), e.key.ref, b.role)}
  {
    t' := Settle(t, ObserveTx(t, e, b));
  }

  lemma NoActNoEpisode(links: set<Link>, g: Group)
    requires forall l | l in links && l.group == g :: l.role != AgentAct
    ensures !Materialized(links, g)
  {
    if Materialized(links, g) {
      var _ := MaterializedHasAct(links, g);
    }
  }

  /* ---- an Agent's Episode ---- */

  const SourcesAlone := map[SourceKey(Alone, "s", "1") := Said(Alone, "1", User, "u").source,
                            SourceKey(Alone, "s", "2") := Said(Alone, "2", AgentActor, "a").source]
  const LinksAlone := {Link(First, "1", Situation), Link(First, "2", AgentAct)}

  ghost predicate Begun(t: Tables) {
    t == Empty().(sources := SourcesAlone, links := t.links, now := t.now) && t.links.Keys == LinksAlone
  }

  lemma FirstWords() returns (t1: Tables, t2: Tables)
    ensures Settle(Empty(), ObserveTx(Empty(), Said(Alone, "1", User, "u"), Binding("1", "g", Situation))) == t1
    ensures Settle(t1, ObserveTx(t1, Said(Alone, "2", AgentActor, "a"), Binding("1", "g", AgentAct))) == t2 && Begun(t2)
  {
    SaidOk(Alone, "1", User, "u");
    SaidOk(Alone, "2", AgentActor, "a");
    BoundOk(Alone, "1", User, "u", "1", Situation);
    BoundOk(Alone, "2", AgentActor, "a", "1", AgentAct);
    NoActNoEpisode({}, First);
    t1 := Observed(Empty(), Said(Alone, "1", User, "u"), Binding("1", "g", Situation));
    NoActNoEpisode(t1.links.Keys, First);
    t2 := Observed(t1, Said(Alone, "2", AgentActor, "a"), Binding("1", "g", AgentAct));
  }

  lemma FirstEpisode() returns (s: State)
    ensures Reachable(s) && Begun(s.tables)
  {
    var t1, t2 := FirstWords();
    ReachableEmpty();
    var asked := AfterObserve(State(Empty(), map[]), Said(Alone, "1", User, "u"), Binding("1", "g", Situation), t1);
    s := AfterObserve(asked, Said(Alone, "2", AgentActor, "a"), Binding("1", "g", AgentAct), t2);
  }

  lemma EpisodeLoads(t: Tables, g: Group, s: Ref, a: Ref)
    requires Inv(t) && Gate(t.links.Keys, g, s, a)
    ensures FormationRoles(t, g)
  {
    GateMaterializes(t.links.Keys, g, s, a);
    MaterializedHasRoles(t, g);
  }

  lemma SaidByUser(t: Tables, g: Group, s: Ref)
    requires Link(g, s, Situation) in t.links && SourceOf(g, s) in t.sources && t.sources[SourceOf(g, s)].actor == User
    ensures SituationBy(t, g, true)
  {
  }

  /* ---- one change committed ---- */

  const NoOffer := Offer({}, {}, {}, [])

  lemma Snapped(t: Tables, w: Window, targets: Targets) returns (snap: Snapshot)
    requires |w.episodes| == 1 && |w.outcomes| <= 1 && FormationRoles(t, w.episodes[0])
    requires LoadFeedback(t, w, {}) == Some(targets) && KeyOf(w) !in t.receipts
    ensures Proceeds(t, w, NoOffer, snap) && snap.targets == targets && snap.recalled == map[]
  {
    snap := TakeSnapshot(t, w, NoOffer).value;
  }

  lemma ApplyOne(t: Tables, d: Desk, c: Change, a: Applied)
    requires d.window.episodes != [] && ApplyChange(Applied(t, Receipt({}, {})), d, c) == Some(a)
    ensures ApplyAll(Applied(t, Receipt({}, {})), d, [c]) == Some(a)
  {
    assert [c][..0] == [];
    assert ApplyAll(Applied(t, Receipt({}, {})), d, []) == Some(Applied(t, Receipt({}, {})));
  }

  lemma OneChange(t: Tables, w: Window, snap: Snapshot, c: Change, a: Applied)
    requires Proceeds(t, w, NoOffer, snap) && ValidChange(t, DeskOf(w, NoOffer, snap), c)
    requires ApplyChange(Applied(t, Receipt({}, {})), DeskOf(w, NoOffer, snap), c) == Some(a)
    ensures CommitTx(t, w, NoOffer, snap, [c]) == Done(FreezeReceipt(a, w))
  {
    ApplyOne(t, DeskOf(w, NoOffer, snap), c, a);
    ChosenOne(t, DeskOf(w, NoOffer, snap), c);
    CommitIs(t, w, NoOffer, snap, [c], a);
  }

  lemma ChosenOne(t: Tables, d: Desk, c: Change)
    requires d.window.episodes != [] && ValidChange(t, d, c)
    ensures Chosen(t, d, [c]) == [c]
  {
  }

  lemma SnapshotTaken(s: State, w: Window, snap: Snapshot)
    requires Proceeds(s.tables, w, NoOffer, snap)
    ensures Do(s, SnapshotStep(0, w, NoOffer)) == s.(snapshots := s.snapshots[0 := (w, snap)])
  {
  }

  lemma CommitTaken(s: State, w: Window, snap: Snapshot, c: Change, t': Tables)
    requires 0 in s.snapshots && s.snapshots[0] == (w, snap) && CommitTx(s.tables, w, NoOffer, snap, [c]) == Done(t')
    ensures Do(s, CommitStep(0, NoOffer, [c])) == State(t', s.snapshots - {0})
  {
  }

  lemma Consolidated(s: State, w: Window, snap: Snapshot, c: Change, t': Tables) returns (s': State)
    requires Reachable(s) && Proceeds(s.tables, w, NoOffer, snap) && CommitTx(s.tables, w, NoOffer, snap, [c]) == Done(t')
    ensures Reachable(s') && s'.tables == t'
  {
    SnapshotTaken(s, w, snap);
    ReachableNext(s, SnapshotStep(0, w, NoOffer));
    var mid := s.(snapshots := s.snapshots[0 := (w, snap)]);
    CommitTaken(mid, w, snap, c, t');
    ReachableNext(mid, CommitStep(0, NoOffer, [c]));
    s' := State(t', mid.snapshots - {0});
  }

  /* ---- the Seed ---- */

  const Text := Trim("x")
  const Original := Version(Seed(Alone, "j", Text, [First], []), 1)
  const FirstWindow := Window("j", [First], [])

  ghost predicate Seeded(t: Tables) {
    var whole :=
      && Original in t.versions && t.versions == map[Original := t.versions[Original]]
      && t.versions[Original].active && t.versions[Original].text == Text && t.versions[Original].application == Self
      && t.basis == {Basis(Original, First, Formation)} && t.outcomeBasis == {} && t.receipts.Keys == {ReceiptKey("t", "j")};
    whole
  }

  ghost predicate SeedOnly(t: Tables) {
    && Seeded(t) && t.sources == SourcesAlone && t.links.Keys == LinksAlone
    && t.contexts == map[] && t.deliveries == map[] && t.outcomes == map[]
  }

  lemma FirstFeedback(t: Tables)
    requires t.versions == map[]
    ensures LoadFeedback(t, FirstWindow, {}) == Some(map[])
  {
    assert TargetVersions(t, FirstWindow, {}) == {};
  }

  lemma FirstSnapshot(t: Tables) returns (snap: Snapshot)
    requires Inv(t) && Begun(t)
    ensures Proceeds(t, FirstWindow, NoOffer, snap) && snap.targets == map[] && snap.recalled == map[]
  {
    EpisodeLoads(t, First, "1", "2");
    FirstFeedback(t);
    snap := Snapped(t, FirstWindow, map[]);
  }

  const Forming := Change(NewDisposition, Adapt, Self, "x", [E(First)])

  lemma FormingIsValid(t: Tables, d: Desk)
    requires Begun(t) && d.window == FirstWindow
    ensures ValidChange(t, d, Forming)
  {
    SaidByUser(t, First, "1");
    assert "x"[0] == 'x' && !Blank("x");
    assert Forming.basis[0].E? && Forming.basis[0].episode in Current(d);
  }

  lemma SeedFormed(t: Tables, d: Desk) returns (a: Applied)
    requires Begun(t) && d.window == FirstWindow
    ensures ApplyChange(Applied(t, Receipt({}, {})), d, Forming) == Some(a) && SeedOnly(FreezeReceipt(a, FirstWindow))
  {
    assert Forming.basis[..0] == [];
    assert CitedEpisodes(Forming.basis) == [First];
    a := ApplyNew(Applied(t, Receipt({}, {})), d, Forming).value;
    assert Links(Original, [First], Formation) == {Basis(Original, First, Formation)};
    assert OutcomeLinks(Original, [], Formation) == {};
  }

  lemma SeedCommitted(t: Tables) returns (snap: Snapshot, t': Tables)
    requires Inv(t) && Begun(t)
    ensures Proceeds(t, FirstWindow, NoOffer, snap) && CommitTx(t, FirstWindow, NoOffer, snap, [Forming]) == Done(t') && SeedOnly(t')
  {
    snap := FirstSnapshot(t);
    var d := DeskOf(FirstWindow, NoOffer, snap);
    FormingIsValid(t, d);
    var a := SeedFormed(t, d);
    OneChange(t, FirstWindow, snap, Forming, a);
    t' := FreezeReceipt(a, FirstWindow);
  }

  lemma SeedExists() returns (s: State)
    ensures Reachable(s) && SeedOnly(s.tables)
  {
    var begun := FirstEpisode();
    ReachableInv(begun);
    var snap, t' := SeedCommitted(begun.tables);
    s := Consolidated(begun, FirstWindow, snap, Forming, t');
  }

  /* ---- the Seed reaches a relationship ---- */

  const Asking := SelectRequest(Second.run, ["3"], None, 0)
  const Receipted := DeliveryKey("t", "d")

  ghost predicate Asked(t: Tables) {
    && Seeded(t) && t.links.Keys == LinksAlone + {Link(Second, "3", Situation)}
    && t.sources == SourcesAlone[SourceKey(Bond, "s", "3") := Said(Bond, "3", User, "u").source]
    && t.contexts == map[] && t.deliveries == map[] && t.outcomes == map[]
  }

  lemma SecondWords(t: Tables) returns (t': Tables)
    requires SeedOnly(t)
    ensures Settle(t, ObserveTx(t, Said(Bond, "3", User, "u"), Binding("2", "g", Situation))) == t' && Asked(t')
  {
    SaidOk(Bond, "3", User, "u");
    BoundOk(Bond, "3", User, "u", "2", Situation);
    NoActNoEpisode(t.links.Keys, Second);
    t' := Observed(t, Said(Bond, "3", User, "u"), Binding("2", "g", Situation));
  }

  /** The version was frozen in a run's context for a Situation. */
  ghost predicate Offered(t: Tables, q: SelectRequest, v: Version, situation: Ref) {
    q.run in t.contexts && t.contexts[q.run].request == q && t.contexts[q.run].items == [Item(v, situation)]
  }

  lemma Selected(t: Tables, q: SelectRequest, v: Version, situation: Ref, text: string) returns (t': Tables)
    requires q.situations == [situation] && q.constitution.None? && q.run !in t.contexts
    requires SourceKey(q.run.owner, q.run.session, situation) in t.sources && Visible(q.run, v)
    requires v in t.versions && t.versions[v].active && IsCandidate(t, Pick(v, situation, text, Self))
    ensures Settle(t, SelectTx(t, q, [Pick(v, situation, text, Self)], [])) == t' && Offered(t', q, v, situation)
    ensures t' == t.(contexts := t'.contexts, shown := t'.shown, now := t'.now) && t'.contexts.Keys == t.contexts.Keys + {q.run}
  {
    var picks := [Pick(v, situation, text, Self)];
    assert q.situations[0] == situation;
    assert Rows(picks) == [Item(v, situation)];
    assert Selectable(t, q, picks, []);
    t' := SelectTx(t, q, picks, []).value;
  }

  lemma Delivered(t: Tables, key: Ref, q: SelectRequest, v: Version, situation: Ref) returns (t': Tables)
    requires Offered(t, q, v, situation) && !Acted(t, q.run) && DeliveryKey(q.run.owner.tenant, key) !in t.deliveries
    ensures Settle(t, DeliverTx(t, key, q.run, q, {V(v)})) == t'
    ensures t' == t.(deliveries := t.deliveries[DeliveryKey(q.run.owner.tenant, key) := DeliveryRow(q.run, q, {V(v)}, t.now)], now := t'.now)
  {
    assert t.contexts[q.run].items[0].version == v;
    t' := DeliverTx(t, key, q.run, q, {V(v)}).value;
  }

  /** From selection to delivery to the Episode of that Situation. */
  lemma Chained(t: Tables, d: DeliveryKey, q: SelectRequest, v: Version, situation: Ref, g: Group)
    requires Offered(t, q, v, situation) && d in t.deliveries && t.deliveries[d].run == q.run == g.run
    requires t.deliveries[d].context == q && t.deliveries[d].memories == {V(v)} && Link(g, situation, Situation) in t.links
    ensures d in ChainReceipts(t, v, g)
  {
    assert t.contexts[g.run].items[0] == Item(v, situation);
  }

  ghost predicate Told(t: Tables) {
    var whole :=
      && Offered(t, Asking, Original, "3") && Receipted in t.deliveries && t.deliveries[Receipted].run == Second.run
      && t.deliveries[Receipted].context == Asking && t.deliveries[Receipted].memories == {V(Original)};
    whole
  }

  const SourcesAsked := SourcesAlone[SourceKey(Bond, "s", "3") := Said(Bond, "3", User, "u").source]
  const SourcesActed := SourcesAsked[SourceKey(Bond, "s", "4") := Said(Bond, "4", AgentActor, "a").source]
  const SourcesJudged := SourcesActed[SourceKey(Bond, "s", "5") := Said(Bond, "5", User, "u").source]
  const LinksActed := LinksAlone + {Link(Second, "3", Situation), Link(Second, "4", AgentAct)}

  lemma SeedActed(t: Tables) returns (t': Tables)
    requires t.links.Keys == LinksAlone + {Link(Second, "3", Situation)} && t.sources == SourcesAsked
    ensures Settle(t, ObserveTx(t, Said(Bond, "4", AgentActor, "a"), Binding("2", "g", AgentAct))) == t'
    ensures t' == t.(sources := SourcesActed, links := t'.links, now := t'.now) && t'.links.Keys == LinksActed
  {
    SaidOk(Bond, "4", AgentActor, "a");
    BoundOk(Bond, "4", AgentActor, "a", "2", AgentAct);
    NoActNoEpisode(t.links.Keys, Second);
    t' := Observed(t, Said(Bond, "4", AgentActor, "a"), Binding("2", "g", AgentAct));
  }

  const Reported := OutcomeKey(Second, "5", "o")

  lemma Admitted(t: Tables, key: Ref, e: Event, run: Ref, group: Ref, deliveries: set<DeliveryKey>, related: set<Ref>) returns (t': Tables)
    requires ValidEvent(e) && ValidBinding(e, Binding(run, group, OutcomeRole)) && Complete(Binding(run, group, OutcomeRole))
    requires e.key !in t.sources && t.outcomes == map[] && BindingsOk(t, GroupOf(e, Binding(run, group, OutcomeRole)), deliveries, related)
    ensures Settle(t, OutcomeTx(t, key, e, run, group, deliveries, related)) == t'
    ensures t' == t.(sources := t.sources[e.key := e.source], links := t'.links, outcomes := t'.outcomes, now := t'.now)
    ensures var g := GroupOf(e, Binding(run, group, OutcomeRole));
            && t'.links.Keys == t.links.Keys + {Link(g, e.key.ref, OutcomeRole)}
            && t'.outcomes == map[OutcomeKey(g, e.key.ref, key) := OutcomeRow(deliveries, related, t.now)]
  {
    assert !OutcomeKeyUsed(t, e.key.owner.tenant, key);
    var o := OutcomeKey(GroupOf(e, Binding(run, group, OutcomeRole)), e.key.ref, key);
    assert t.outcomes[o := OutcomeRow(deliveries, related, t.now)] == map[o := OutcomeRow(deliveries, related, t.now)];
    t' := Settle(t, OutcomeTx(t, key, e, run, group, deliveries, related));
  }

  lemma SeedJudged(t: Tables) returns (t': Tables)
    requires t.links.Keys == LinksActed && t.sources == SourcesActed && t.outcomes == map[] && Told(t)
    ensures Settle(t, OutcomeTx(t, "o", Said(Bond, "5", User, "u"), "2", "g", {Receipted}, {"4"})) == t'
    ensures t' == t.(sources := SourcesJudged, links := t'.links, outcomes := t'.outcomes, now := t'.now)
    ensures t'.links.Keys == LinksActed + {Link(Second, "5", OutcomeRole)}
    ensures t'.outcomes == map[Reported := OutcomeRow({Receipted}, {"4"}, t.now)]
  {
    SaidOk(Bond, "5", User, "u");
    BoundOk(Bond, "5", User, "u", "2", OutcomeRole);
    assert Link(Second, "4", AgentAct) in t.links;
    t' := Admitted(t, "o", Said(Bond, "5", User, "u"), "2", "g", {Receipted}, {"4"});
  }

  /** All that precedes the second window. */
  ghost predicate Judged(t: Tables) {
    var whole :=
      && Seeded(t) && Told(t) && t.sources == SourcesJudged && t.links.Keys == LinksActed + {Link(Second, "5", OutcomeRole)}
      && Reported in t.outcomes && t.outcomes[Reported].deliveries == {Receipted}
      && Third.run !in t.contexts && t.deliveries.Keys == {Receipted};
    whole
  }

  const Third := Group(Run(Alone, "s", "3"), "g")

  lemma SecondUnacted(t: Tables)
    requires t.links.Keys == LinksAlone + {Link(Second, "3", Situation)}
    ensures !Acted(t, Second.run)
  {
  }

  /** The Seed was shown to the run and nothing else happened. */
  ghost predicate Shown(t: Tables) {
    var whole :=
      && Told(t) && Seeded(t) && t.sources == SourcesAsked && t.outcomes == map[]
      && Third.run !in t.contexts && t.deliveries.Keys == {Receipted} && t.links.Keys == LinksAlone + {Link(Second, "3", Situation)};
    whole
  }

  lemma SecondTold(t: Tables) returns (t1: Tables, t2: Tables, t3: Tables)
    requires SeedOnly(t)
    ensures Settle(t, ObserveTx(t, Said(Bond, "3", User, "u"), Binding("2", "g", Situation))) == t1
    ensures Settle(t1, SelectTx(t1, Asking, [Pick(Original, "3", Text, Self)], [])) == t2
    ensures Settle(t2, DeliverTx(t2, "d", Second.run, Asking, {V(Original)})) == t3 && Shown(t3)
  {
    t1 := SecondWords(t);
    AskedFacts(t1);
    t2, t3 := SecondShown(t1);
    ShownFrom(t1, t3);
  }

  lemma AskedFacts(t: Tables)
    requires Asked(t)
    ensures SourceKey(Bond, "s", "3") in t.sources
  {
  }

  lemma ShownFrom(t: Tables, t': Tables)
    requires Asked(t) && Told(t') && t' == t.(contexts := t'.contexts, shown := t'.shown, deliveries := t'.deliveries, now := t'.now)
    requires t'.contexts.Keys == {Second.run} && t'.deliveries.Keys == {Receipted}
    ensures Shown(t')
  {
  }

  lemma SecondShown(t1: Tables) returns (t2: Tables, t3: Tables)
    requires Seeded(t1) && SourceKey(Bond, "s", "3") in t1.sources && t1.contexts == map[] && t1.deliveries == map[]
    requires t1.links.Keys == LinksAlone + {Link(Second, "3", Situation)}
    ensures Settle(t1, SelectTx(t1, Asking, [Pick(Original, "3", Text, Self)], [])) == t2
    ensures Settle(t2, DeliverTx(t2, "d", Second.run, Asking, {V(Original)})) == t3 && Told(t3)
    ensures t3 == t1.(contexts := t3.contexts, shown := t3.shown, deliveries := t3.deliveries, now := t3.now)
    ensures t3.contexts.Keys == {Second.run} && t3.deliveries.Keys == {Receipted}
  {
    OriginalIsCandidate(t1);
    t2 := Selected(t1, Asking, Original, "3", Text);
    SecondUnacted(t2);
    t3 := Delivered(t2, "d", Asking, Original, "3");
  }

  lemma OriginalIsCandidate(t: Tables)
    requires Seeded(t)
    ensures Original in t.versions && t.versions[Original].active && IsCandidate(t, Pick(Original, "3", Text, Self))
    ensures Visible(Second.run, Original)
  {
  }

  lemma SeedShown() returns (s: State)
    ensures Reachable(s) && Shown(s.tables)
  {
    var seeded := SeedExists();
    var t1, t2, t3 := SecondTold(seeded.tables);
    var asked := AfterObserve(seeded, Said(Bond, "3", User, "u"), Binding("2", "g", Situation), t1);
    var offered := AfterSelect(asked, Asking, [Pick(Original, "3", Text, Self)], t2);
    s := AfterDeliver(offered, "d", Second.run, Asking, {V(Original)}, t3);
  }

  lemma ActedThenJudged(t: Tables) returns (t1: Tables, t2: Tables)
    requires Shown(t)
    ensures Settle(t, ObserveTx(t, Said(Bond, "4", AgentActor, "a"), Binding("2", "g", AgentAct))) == t1
    ensures Settle(t1, OutcomeTx(t1, "o", Said(Bond, "5", User, "u"), "2", "g", {Receipted}, {"4"})) == t2 && Judged(t2)
  {
    t1 := SeedActed(t);
    t2 := SeedJudged(t1);
  }

  lemma SeedFed() returns (s: State)
    ensures Reachable(s) && Judged(s.tables)
  {
    var shown := SeedShown();
    var t1, t2 := ActedThenJudged(shown.tables);
    var acted := AfterObserve(shown, Said(Bond, "4", AgentActor, "a"), Binding("2", "g", AgentAct), t1);
    s := AfterOutcome(acted, "o", Said(Bond, "5", User, "u"), "2", "g", {Receipted}, {"4"}, t2);
  }

  /* ---- the revision from the relationship ---- */

  const SecondWindow := Window("k", [Second], [Reported])

  lemma SeedChained(t: Tables)
    requires Judged(t)
    ensures Receipted in ChainReceipts(t, Original, Second)
  {
    Chained(t, Receipted, Asking, Original, "3", Second);
  }

  lemma SecondTargets(t: Tables)
    requires Judged(t)
    ensures TargetVersions(t, SecondWindow, {}) == {Original}
  {
    SeedChained(t);
    assert Second in SecondWindow.episodes;
  }

  lemma OriginalLoads(t: Tables)
    requires t.basis == {Basis(Original, First, Formation)} && FormationRoles(t, First)
    ensures AnchorsLoad(t, Original)
  {
    forall g | g in Anchors(t, Original) ensures g == First {
      AnchorRole(t, Original, g);
    }
  }

  lemma SecondTarget(t: Tables)
    requires Judged(t)
    ensures var target := LoadTarget(t, SecondWindow, {}, Original);
            Second in target.episodes && Reported in target.outcomes && target.text == Text
  {
    SeedChained(t);
    assert Second !in Consumed(t, Original);
    assert SourceOf(Second, "5") == SourceKey(Bond, "s", "5");
    assert NonAgentOutcome(t, Reported);
    assert Receipted in t.outcomes[Reported].deliveries * ChainReceipts(t, Original, Second);
  }

  lemma SecondFeedback(t: Tables) returns (targets: Targets)
    requires TargetVersions(t, SecondWindow, {}) == {Original} && AnchorsLoad(t, Original) && Reported in t.outcomes
    requires Original in t.versions
    ensures LoadFeedback(t, SecondWindow, {}) == Some(targets) && targets.Keys == {Original}
    ensures targets[Original] == LoadTarget(t, SecondWindow, {}, Original)
  {
    targets := LoadFeedback(t, SecondWindow, {}).value;
  }

  lemma JudgedFacts(t: Tables)
    requires Judged(t)
    ensures Gate(t.links.Keys, First, "1", "2") && Gate(t.links.Keys, Second, "3", "4") && Link(First, "1", Situation) in t.links
    ensures SourceOf(First, "1") in t.sources && t.sources[SourceOf(First, "1")].actor == User
    ensures Original in t.versions && t.basis == {Basis(Original, First, Formation)} && Reported in t.outcomes && KeyOf(SecondWindow) !in t.receipts
  {
  }

  lemma SecondLoads(t: Tables)
    requires Inv(t) && Gate(t.links.Keys, First, "1", "2") && Gate(t.links.Keys, Second, "3", "4")
    ensures FormationRoles(t, First) && FormationRoles(t, Second)
  {
    EpisodeLoads(t, First, "1", "2");
    EpisodeLoads(t, Second, "3", "4");
  }

  lemma SecondSnapshot(t: Tables) returns (snap: Snapshot)
    requires TargetVersions(t, SecondWindow, {}) == {Original} && AnchorsLoad(t, Original) && Reported in t.outcomes
    requires Original in t.versions && KeyOf(SecondWindow) !in t.receipts && FormationRoles(t, Second)
    ensures Proceeds(t, SecondWindow, NoOffer, snap) && snap.recalled == map[] && Original in snap.targets
    ensures snap.targets[Original] == LoadTarget(t, SecondWindow, {}, Original)
  {
    var targets := SecondFeedback(t);
    snap := Snapped(t, SecondWindow, targets);
  }

  const Revising := Change(Existing(V(Original)), TextOp, Self, "yy", [E(Second), O(Reported)])
  const Revision' := Version(Original.root, 2)

  /** The revision is active and rests on the relationship's Episode. */
  ghost predicate Live(t: Tables) {
    && ActiveSeed(t, Revision') && t.versions[Revision'].text == "yy" && t.versions[Revision'].application == Self
    && Basis(Revision', Second, Revision) in t.basis
  }

  ghost predicate SameRows(t: Tables, t': Tables) {
    t'.sources == t.sources && t'.links == t.links && t'.contexts == t.contexts && t'.deliveries == t.deliveries
  }

  lemma RevisingIsValid(t: Tables, d: Desk)
    requires d.window == SecondWindow && Original in d.targets && d.recalled == map[]
    requires Second in d.targets[Original].episodes && Reported in d.targets[Original].outcomes
    ensures ValidChange(t, d, Revising)
  {
    var refs := Revising.basis;
    assert "yy"[0] == 'y' && !Blank("yy");
    assert refs[0] == E(Second) && refs[1] == O(Reported);
    RevisingCites();
    assert FeedbackBasis(d.targets[Original], refs, true);
  }

  lemma RevisingCites()
    ensures CitedEpisodes(Revising.basis) == [Second] && CitedOutcomes(Revising.basis) == [Reported]
  {
    LifecycleResults.CitedSnoc([], Second, Reported);
    assert [] + [E(Second), O(Reported)] == Revising.basis;
  }

  lemma SeedRevised(t: Tables, d: Desk) returns (a: Applied)
    requires Seeded(t) && d.window == SecondWindow && d.recalled == map[] && Original in d.targets && d.targets[Original].text == Text
    ensures ApplyChange(Applied(t, Receipt({}, {})), d, Revising) == Some(a)
    ensures SameIntake(t, a.tables) && Live(a.tables)
  {
    RevisingCites();
    assert |Text| <= 1 && |"yy"| == 2;
    assert !TextTaken(t, Alone, true, Self, "yy", {Original});
    a := Revise(Applied(t, Receipt({}, {})), Original, "yy", "k", [Second], [Reported]).value;
    assert Basis(Revision', Second, Revision) in Links(Revision', [Second], Revision);
  }

  lemma RevisionCommitted(t: Tables) returns (snap: Snapshot, t': Tables)
    requires Inv(t) && Judged(t)
    ensures Proceeds(t, SecondWindow, NoOffer, snap) && CommitTx(t, SecondWindow, NoOffer, snap, [Revising]) == Done(t')
    ensures SameRows(t, t') && Live(t')
  {
    JudgedFacts(t);
    SecondLoads(t);
    SecondTargets(t);
    OriginalLoads(t);
    SecondTarget(t);
    snap := SecondSnapshot(t);
    t' := RevisionApplied(t, snap);
  }

  lemma RevisionApplied(t: Tables, snap: Snapshot) returns (t': Tables)
    requires Seeded(t) && Proceeds(t, SecondWindow, NoOffer, snap) && snap.recalled == map[] && Original in snap.targets
    requires Second in snap.targets[Original].episodes && Reported in snap.targets[Original].outcomes && snap.targets[Original].text == Text
    ensures CommitTx(t, SecondWindow, NoOffer, snap, [Revising]) == Done(t')
    ensures SameRows(t, t') && Live(t')
  {
    var d := DeskOf(SecondWindow, NoOffer, snap);
    RevisingIsValid(t, d);
    var a := SeedRevised(t, d);
    OneChange(t, SecondWindow, snap, Revising, a);
    t' := FreezeReceipt(a, SecondWindow);
  }

  /* ---- and then a window does not load ---- */

  lemma ForeignAnchor(t: Tables)
    requires Live(t)
    ensures Blocking(t, Revision')
  {
    assert Second in Anchors(t, Revision') && Second.run.owner != Revision'.root.owner;
  }

  const AskingAgain := SelectRequest(Third.run, ["6"], None, 0)
  const ReceiptedAgain := DeliveryKey("t", "e")

  /** The tables after the revision. */
  ghost predicate Turned(t: Tables) {
    && Live(t) && t.sources == SourcesJudged && t.links.Keys == LinksActed + {Link(Second, "5", OutcomeRole)}
    && Third.run !in t.contexts && t.deliveries.Keys == {Receipted}
  }

  lemma SeedTurned() returns (s: State)
    ensures Reachable(s) && Turned(s.tables)
  {
    var fed := SeedFed();
    ReachableInv(fed);
    var snap, t' := RevisionCommitted(fed.tables);
    s := Consolidated(fed, SecondWindow, snap, Revising, t');
  }

  const LinksTurned := LinksActed + {Link(Second, "5", OutcomeRole)}

  lemma ThirdIsNew(t: Tables)
    requires t.sources == SourcesJudged && t.links.Keys == LinksTurned
    ensures SourceKey(Alone, "s", "6") !in t.sources && SourceKey(Alone, "s", "7") !in t.sources && !Materialized(t.links.Keys, Third)
  {
    NoActNoEpisode(t.links.Keys, Third);
  }

  lemma ThirdWords(t: Tables) returns (t': Tables)
    requires Turned(t)
    ensures Settle(t, ObserveTx(t, Said(Alone, "6", User, "u"), Binding("3", "g", Situation))) == t'
    ensures t' == t.(sources := t'.sources, links := t'.links, now := t'.now) && t'.links.Keys == LinksTurned + {Link(Third, "6", Situation)}
    ensures SourceKey(Alone, "s", "6") in t'.sources && SourceKey(Alone, "s", "7") !in t'.sources
  {
    SaidOk(Alone, "6", User, "u");
    BoundOk(Alone, "6", User, "u", "3", Situation);
    ThirdIsNew(t);
    t' := Observed(t, Said(Alone, "6", User, "u"), Binding("3", "g", Situation));
  }

  lemma ThirdActs(t: Tables) returns (t': Tables)
    requires t.links.Keys == LinksTurned + {Link(Third, "6", Situation)} && SourceKey(Alone, "s", "7") !in t.sources
    ensures Settle(t, ObserveTx(t, Said(Alone, "7", AgentActor, "a"), Binding("3", "g", AgentAct))) == t'
    ensures t' == t.(sources := t'.sources, links := t'.links, now := t'.now)
    ensures Link(Third, "6", Situation) in t'.links && Link(Third, "7", AgentAct) in t'.links
  {
    SaidOk(Alone, "7", AgentActor, "a");
    BoundOk(Alone, "7", AgentActor, "a", "3", AgentAct);
    NoActNoEpisode(t.links.Keys, Third);
    t' := Observed(t, Said(Alone, "7", AgentActor, "a"), Binding("3", "g", AgentAct));
  }

  lemma ThirdUnacted(t: Tables)
    requires t.links.Keys == LinksTurned + {Link(Third, "6", Situation)}
    ensures !Acted(t, Third.run)
  {
  }

  /** The revision reaches another Episode of the Agent. */
  ghost predicate Returned(t: Tables) {
    var whole :=
      && Live(t) && Offered(t, AskingAgain, Revision', "6") && ReceiptedAgain in t.deliveries
      && t.deliveries[ReceiptedAgain] == DeliveryRow(Third.run, AskingAgain, {V(Revision')}, t.deliveries[ReceiptedAgain].at);
    whole
  }

  lemma ThirdTold(t: Tables) returns (t1: Tables, t2: Tables, t3: Tables)
    requires Turned(t)
    ensures Settle(t, ObserveTx(t, Said(Alone, "6", User, "u"), Binding("3", "g", Situation))) == t1
    ensures Settle(t1, SelectTx(t1, AskingAgain, [Pick(Revision', "6", "yy", Self)], [])) == t2
    ensures Settle(t2, DeliverTx(t2, "e", Third.run, AskingAgain, {V(Revision')})) == t3 && Returned(t3)
    ensures t3.links.Keys == LinksTurned + {Link(Third, "6", Situation)} && SourceKey(Alone, "s", "7") !in t3.sources
  {
    t1 := ThirdWords(t);
    t2, t3 := ThirdShown(t1);
  }

  lemma ThirdShown(t1: Tables) returns (t2: Tables, t3: Tables)
    requires Live(t1) && t1.links.Keys == LinksTurned + {Link(Third, "6", Situation)} && SourceKey(Alone, "s", "6") in t1.sources
    requires Third.run !in t1.contexts && t1.deliveries.Keys == {Receipted}
    ensures Settle(t1, SelectTx(t1, AskingAgain, [Pick(Revision', "6", "yy", Self)], [])) == t2
    ensures Settle(t2, DeliverTx(t2, "e", Third.run, AskingAgain, {V(Revision')})) == t3 && Returned(t3)
    ensures t3.links == t1.links && t3.sources == t1.sources
  {
    t2 := Selected(t1, AskingAgain, Revision', "6", "yy");
    ThirdUnacted(t2);
    t3 := Delivered(t2, "e", AskingAgain, Revision', "6");
  }

  lemma SeedReturned() returns (s: State)
    ensures Reachable(s) && Returned(s.tables) && Link(Third, "6", Situation) in s.tables.links && Link(Third, "7", AgentAct) in s.tables.links
  {
    var turned := SeedTurned();
    var t1, t2, t3 := ThirdTold(turned.tables);
    var asked := AfterObserve(turned, Said(Alone, "6", User, "u"), Binding("3", "g", Situation), t1);
    var offered := AfterSelect(asked, AskingAgain, [Pick(Revision', "6", "yy", Self)], t2);
    var told := AfterDeliver(offered, "e", Third.run, AskingAgain, {V(Revision')}, t3);
    var t4 := ThirdActs(t3);
    s := AfterObserve(told, Said(Alone, "7", AgentActor, "a"), Binding("3", "g", AgentAct), t4);
  }

  const ThirdWindow := Window("l", [Third], [])

  lemma ThirdMustShow(t: Tables)
    requires Returned(t) && Link(Third, "6", Situation) in t.links
    ensures MustShow(t, ThirdWindow, Revision')
  {
    Chained(t, ReceiptedAgain, AskingAgain, Revision', "6", Third);
    assert ThirdWindow.episodes[0] == Third;
  }

  lemma ThirdLoads(t: Tables)
    requires Inv(t) && Link(Third, "6", Situation) in t.links && Link(Third, "7", AgentAct) in t.links
    ensures WindowOk(t, ThirdWindow) && WindowOutcomesOk(t, ThirdWindow)
  {
    EpisodeLoads(t, Third, "6", "7");
    OneEpisodeWindow(t, ThirdWindow);
  }

  lemma OneEpisodeWindow(t: Tables, w: Window)
    requires |w.episodes| == 1 && w.outcomes == [] && FormationRoles(t, w.episodes[0])
    ensures WindowOk(t, w) && WindowOutcomesOk(t, w)
  {
  }

  /** A reachable state in which an Agent's active Seed has an anchor of one of its
      relationships, and a well-formed window of that Agent, through whose Episode the
      Seed was delivered, does not load whatever is offered beside it. */
  lemma ForeignAnchorHappens() returns (s: State, v: Version, w: Window)
    ensures Reachable(s) && Blocking(s.tables, v) && WindowOk(s.tables, w) && WindowOutcomesOk(s.tables, w) && MustShow(s.tables, w, v)
    ensures forall offer :: TakeSnapshot(s.tables, w, offer).None?
  {
    s := SeedReturned();
    ReachableInv(s);
    v, w := Revision', ThirdWindow;
    ForeignAnchor(s.tables);
    ThirdMustShow(s.tables);
    ThirdLoads(s.tables);
    NeverLoads(s.tables, w, v);
  }

  lemma NeverLoads(t: Tables, w: Window, v: Version)
    requires Blocking(t, v) && MustShow(t, w, v)
    ensures forall offer :: TakeSnapshot(t, w, offer).None?
  {
    forall offer ensures TakeSnapshot(t, w, offer).None? {
      ShownBlocks(t, w, offer, v);
    }
  }
}
