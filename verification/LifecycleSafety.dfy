/** What every transaction keeps: rows only accumulate, and the row invariants
    that tie versions, basis links, contexts, deliveries and Outcomes together. */
module LifecycleSafety {
  import opened Refs
  import opened Causal
  import opened LifecycleModel

  /* ---- tables only grow ---- */

  predicate MapGrows<K, T(==)>(a: map<K, T>, b: map<K, T>) {
    forall k | k in a :: k in b && b[k] == a[k]
  }

  predicate SameRow(a: VersionRow, b: VersionRow) {
    a.(active := b.active) == b && (b.active ==> a.active)
  }

  predicate VersionsGrow(a: map<Version, VersionRow>, b: map<Version, VersionRow>) {
    forall v | v in a :: v in b && SameRow(a[v], b[v])
  }

  predicate IntakeGrows(t: Tables, t': Tables) {
    && MapGrows(t.sources, t'.sources) && MapGrows(t.links, t'.links) && MapGrows(t.contexts, t'.contexts)
    && MapGrows(t.deliveries, t'.deliveries) && MapGrows(t.outcomes, t'.outcomes) && t.now <= t'.now
  }

  /** A sealed Episode gains only Outcomes. */
  predicate SealedKept(t: Tables, t': Tables) {
    forall l | l in t'.links && l !in t.links && Materialized(t.links.Keys, l.group) :: l.role == OutcomeRole
  }

  /** What formed or revised an existing version is never added to. */
  predicate BasisGrows(t: Tables, t': Tables) {
    && t.basis <= t'.basis && t.outcomeBasis <= t'.outcomeBasis
    && (forall b | b in t'.basis && b !in t.basis && b.version in t.versions :: b.role != Formation && b.role != Revision)
    && (forall b | b in t'.outcomeBasis && b !in t.outcomeBasis && b.version in t.versions :: b.role != Formation && b.role != Revision)
  }

  /** Rows never change, except active to superseded. */
  ghost predicate Extends(t: Tables, t': Tables) {
    && IntakeGrows(t, t') && SealedKept(t, t') && VersionsGrow(t.versions, t'.versions) && BasisGrows(t, t')
    && MapGrows(t.receipts, t'.receipts) && MapGrows(t.returned, t'.returned) && MapGrows(t.shown, t'.shown)
  }

  lemma ExtendsSelf(t: Tables)
    ensures Extends(t, t)
  {
  }

  lemma ExtendsAll(a: Tables, b: Tables, c: Tables)
    requires Extends(a, b) && Extends(b, c)
    ensures Extends(a, c)
  {
    forall l | l in c.links && l !in a.links && Materialized(a.links.Keys, l.group) ensures l.role == OutcomeRole {
      MaterializedGrows(a.links.Keys, b.links.Keys, l.group);
    }
    assert VersionsGrow(a.versions, c.versions) by {
      forall v | v in a.versions ensures v in c.versions && SameRow(a.versions[v], c.versions[v]) {
        assert SameRow(a.versions[v], b.versions[v]) && SameRow(b.versions[v], c.versions[v]);
      }
    }
  }

  /* ---- facts that growth keeps ---- */

  lemma FormationRolesGrow(t: Tables, t': Tables, g: Group)
    requires FormationRoles(t, g) && IntakeGrows(t, t')
    ensures FormationRoles(t', g)
  {
    var s, a :| s in t.links && a in t.links && Gate(t.links.Keys, g, s.source, a.source)
      && SourceOf(g, s.source) in t.sources && SourceOf(g, a.source) in t.sources
      && t.sources[SourceOf(g, a.source)].actor == AgentActor && t.sources[SourceOf(g, a.source)].actorRef == g.run.owner.agent;
    assert Gate(t'.links.Keys, g, s.source, a.source);
  }

  lemma SituationByGrows(t: Tables, t': Tables, g: Group, userOnly: bool)
    requires SituationBy(t, g, userOnly) && IntakeGrows(t, t')
    ensures SituationBy(t', g, userOnly)
  {
    var l :| l in t.links && l.group == g && l.role == Situation && SourceOf(g, l.source) in t.sources
        && var a := t.sources[SourceOf(g, l.source)].actor; a != AgentActor && a != UnknownActor && (!userOnly || a == User);
    assert l in t'.links;
  }

  lemma ChainGrows(t: Tables, t': Tables, v: Version, g: Group, d: DeliveryKey)
    requires Chain(t, v, g, d) && IntakeGrows(t, t')
    ensures Chain(t', v, g, d)
  {
    var i :| 0 <= i < |t.contexts[g.run].items| && t.contexts[g.run].items[i].version == v
                   && Link(g, t.contexts[g.run].items[i].query, Situation) in t.links;
    assert t'.contexts[g.run] == t.contexts[g.run];
    assert Link(g, t'.contexts[g.run].items[i].query, Situation) in t'.links;
  }

  /* ---- sources and links ---- */

  predicate LinkOk(t: Tables, l: Link) {
    && SourceOf(l.group, l.source) in t.sources
    && (l.role == AgentAct ==>
          var s := t.sources[SourceOf(l.group, l.source)]; s.actor == AgentActor && s.actorRef == l.group.run.owner.agent)
  }

  predicate LinksOk(t: Tables) {
    && (forall l | l in t.links :: LinkOk(t, l) && t.links[l] < t.now)
    && (forall k | k in t.sources :: t.sources[k].actor != UnknownActor)
  }

  /** AgentAct links carry the scoped Agent, so the Ledger's gate already implies
      the engine's stricter check. */
  lemma MaterializedHasRoles(t: Tables, g: Group)
    requires LinksOk(t) && Materialized(t.links.Keys, g)
    ensures FormationRoles(t, g)
  {
    var s, a :| s in t.links.Keys && a in t.links.Keys && Gate(t.links.Keys, g, s.source, a.source);
    assert LinkOk(t, Link(g, s.source, Situation)) && LinkOk(t, Link(g, a.source, AgentAct));
  }

  lemma RolesMaterialize(t: Tables, g: Group)
    requires FormationRoles(t, g)
    ensures Materialized(t.links.Keys, g)
  {
    var s, a :| s in t.links && a in t.links && Gate(t.links.Keys, g, s.source, a.source);
    GateMaterializes(t.links.Keys, g, s.source, a.source);
  }

  /* ---- contexts and deliveries ---- */

  predicate ContextOk(t: Tables, run: Run)
    requires run in t.contexts
  {
    var row := t.contexts[run];
    && row.request.run == run && row.at < t.now && DistinctItems(row.items) && Unambiguous(row.request, row.items, row.evidence)
    && (forall i :: 0 <= i < |row.items| ==>
          && row.items[i].version in t.versions && t.versions[row.items[i].version].at < row.at
          && Visible(run, row.items[i].version))
  }

  predicate ShownOk(t: Tables, run: Run)
    requires run in t.contexts
  {
    && (forall i :: 0 <= i < |t.contexts[run].items| ==> t.contexts[run].items[i].version in t.versions)
    && run in t.shown
    && t.shown[run] == ReadContext(t, t.contexts[run].request, t.contexts[run].items, t.contexts[run].evidence)
  }

  predicate DeliveryOk(t: Tables, d: DeliveryKey)
    requires d in t.deliveries
  {
    var row := t.deliveries[d];
    && row.run in t.contexts && t.contexts[row.run].request == row.context && t.contexts[row.run].at < row.at < t.now
    && (forall m | m in row.memories :: Deliverable(t.contexts[row.run], m))
  }

  /** Delivered before every AgentAct of the run. */
  predicate BeforeActs(t: Tables) {
    forall d, l | d in t.deliveries && l in t.links && l.role == AgentAct && l.group.run == t.deliveries[d].run ::
      t.deliveries[d].at < t.links[l]
  }

  predicate OutcomeOk(t: Tables, o: OutcomeKey)
    requires o in t.outcomes
  {
    var row := t.outcomes[o];
    && row.at < t.now && Link(o.group, o.source, OutcomeRole) in t.links
    && (forall d | d in row.deliveries :: d in t.deliveries && t.deliveries[d].run == o.group.run && t.deliveries[d].at < row.at)
    && (row.deliveries != {} ==>
          exists r :: r in row.related && Link(o.group, r, AgentAct) in t.links && t.links[Link(o.group, r, AgentAct)] < row.at)
  }

  ghost predicate IntakeOk(t: Tables) {
    && LinksOk(t) && BeforeActs(t) && t.shown.Keys == t.contexts.Keys
    && (forall run | run in t.contexts :: ContextOk(t, run) && ShownOk(t, run))
    && (forall d | d in t.deliveries :: DeliveryOk(t, d))
    && (forall o | o in t.outcomes :: OutcomeOk(t, o))
  }

  lemma {:induction false} MemoriesGrow(t: Tables, t': Tables, items: seq<Item>, seeds: bool)
    requires VersionsGrow(t.versions, t'.versions)
    requires forall i :: 0 <= i < |items| ==> items[i].version in t.versions
    ensures forall i :: 0 <= i < |items| ==> items[i].version in t'.versions
    ensures Memories(t', items, seeds) == Memories(t, items, seeds)
  {
    if items != [] {
      var n := |items| - 1;
      MemoriesGrow(t, t', items[..n], seeds);
      assert SameRow(t.versions[items[n].version], t'.versions[items[n].version]);
    }
  }

  lemma ContextGrows(t: Tables, t': Tables, run: Run)
    requires run in t.contexts && ContextOk(t, run) && ShownOk(t, run)
    requires MapGrows(t.contexts, t'.contexts) && MapGrows(t.shown, t'.shown) && VersionsGrow(t.versions, t'.versions) && t.now <= t'.now
    ensures ContextOk(t', run) && ShownOk(t', run)
  {
    var row := t.contexts[run];
    assert t'.contexts[run] == row && t'.shown[run] == t.shown[run];
    forall i | 0 <= i < |row.items| ensures SameRow(t.versions[row.items[i].version], t'.versions[row.items[i].version]) {
      assert row.items[i].version in t.versions;
    }
    MemoriesGrow(t, t', row.items, false);
    MemoriesGrow(t, t', row.items, true);
  }

  lemma OutcomeGrows(t: Tables, t': Tables, o: OutcomeKey)
    requires o in t.outcomes && OutcomeOk(t, o) && IntakeGrows(t, t')
    ensures o in t'.outcomes && OutcomeOk(t', o)
  {
    var row := t.outcomes[o];
    if row.deliveries != {} {
      var r :| r in row.related && Link(o.group, r, AgentAct) in t.links && t.links[Link(o.group, r, AgentAct)] < row.at;
      assert Link(o.group, r, AgentAct) in t'.links;
    }
  }

  /* ---- versions and basis ---- */

  /** Numbers start at one and leave no gap; a version is active exactly when it
      has no successor. */
  predicate StoreOk(versions: map<Version, VersionRow>) {
    forall v {:trigger Stored(versions, v)} | v in versions :: Stored(versions, v)
  }

  function Prior(v: Version): Version
    requires v.number >= 1
  {
    Version(v.root, v.number - 1)
  }

  function Next(v: Version): Version {
    Version(v.root, v.number + 1)
  }

  predicate Stored(versions: map<Version, VersionRow>, v: Version)
    requires v in versions
  {
    && v.number >= 1
    && (v.number > 1 ==> Prior(v) in versions && versions[Prior(v)].at < versions[v].at)
    && (versions[v].active <==> Next(v) !in versions)
    && (v.number == 1 ==>
          && versions[v].job == v.root.job && versions[v].text == v.root.text
          && (v.root.Recollection? ==> versions[v].application == v.root.application))
  }

  /** No two active memories of one owner (and application) share a text. */
  predicate TextsOk(versions: map<Version, VersionRow>) {
    forall v, w | v in versions && w in versions && v != w && versions[v].active && versions[w].active
        && v.root.owner == w.root.owner && v.root.Seed? == w.root.Seed?
        && (v.root.Seed? || versions[v].application == versions[w].application)
      :: versions[v].text != versions[w].text
  }

  predicate ActedBefore(t: Tables, g: Group, at: nat) {
    exists l :: l in t.links && l.group == g && l.role == AgentAct && t.links[l] < at
  }

  predicate Fed(t: Tables, v: Version, g: Group) {
    exists d :: d in t.deliveries && Chain(t, v, g, d)
  }

  /** A non-Agent Outcome attributed to a delivery of the version to its run. */
  predicate Attributed(t: Tables, v: Version, o: OutcomeKey) {
    o in t.outcomes && NonAgentOutcome(t, o) && exists d :: d in t.outcomes[o].deliveries && Chain(t, v, o.group, d)
  }

  ghost predicate HasOutcome(t: Tables, v: Version, g: Group, role: BasisRole) {
    exists o :: OutcomeBasis(v, o, role) in t.outcomeBasis && o.group == g
  }

  /** Why an Episode may stand behind a revised Seed version: it was a direct user
      requirement, its own attributed Outcome is cited too, or it anchored the
      prior version and some attributed Outcome is cited. */
  ghost predicate RevisionReason(t: Tables, v: Version, g: Group) {
    v.number >= 2 &&
    (|| (OutcomesIn(t, v, Revision) == {} && BasisIn(t, v, {Revision}) == {g} && SituationBy(t, g, true) && g.run.owner == v.root.owner)
     || HasOutcome(t, v, g, Revision)
     || (g in Anchors(t, Prior(v)) && OutcomesIn(t, v, Revision) != {}))
  }

  ghost predicate BasisOk(t: Tables, b: Basis) {
    b.version in t.versions && FormationRoles(t, b.episode) && BasisReason(t, b)
  }

  ghost predicate BasisReason(t: Tables, b: Basis)
    requires b.version in t.versions
  {
    match b.role
    case Formation => b.version.number == 1 && ActedBefore(t, b.episode, t.versions[b.version].at)
    case Revision =>
      && ActedBefore(t, b.episode, t.versions[b.version].at) && b.version.number >= 2
      && (b.version.root.Seed? ==> RevisionReason(t, b.version, b.episode))
    case Reenactment => b.version.root.Seed? && Fed(t, b.version, b.episode)
    case Inhibition => b.version.root.Seed? && Fed(t, b.version, b.episode) && HasOutcome(t, b.version, b.episode, Inhibition)
    case Support => b.version.root.Recollection?
  }

  predicate OutcomeBasisOk(t: Tables, b: OutcomeBasis) {
    && b.version in t.versions && b.version.root.Seed? && b.outcome in t.outcomes
    && Basis(b.version, b.outcome.group, b.role) in t.basis
    && match b.role
       case Formation => NonAgentOutcome(t, b.outcome)
       case Inhibition => Attributed(t, b.version, b.outcome)
       case Revision => b.version.number >= 2 && Attributed(t, Prior(b.version), b.outcome)
       case _ => false
  }

  /** An Episode feeds a version at most once, and reenactments of one version
      come from different runs. */
  predicate FeedOnce(basis: set<Basis>) {
    && (forall b, c | b in basis && c in basis && b.version == c.version && b.episode == c.episode
          && b.role in {Reenactment, Inhibition} && c.role in {Reenactment, Inhibition} :: b == c)
    && (forall b, c | b in basis && c in basis && b.version == c.version && b.role == Reenactment && c.role == Reenactment
          && b.episode.run == c.episode.run :: b == c)
  }

  /** Eligibility on the links that are sealed: everything but late Outcomes. */
  predicate SealedBasis(t: Tables, eps: seq<Group>) {
    FormationShape(eps) && Experienced(t, eps) && SealedSourcesDiffer(t, eps)
  }

  predicate SealedSourcesDiffer(t: Tables, eps: seq<Group>) {
    forall l, m | l in t.links && m in t.links && l != m && l.group in eps && m.group in eps
         && l.role != OutcomeRole && m.role != OutcomeRole ::
         !(l.group.run.session == m.group.run.session && l.source == m.source)
  }

  /** How every Seed began: an eligible body of same-owner Episodes, or one
      Episode with a user Situation. */
  predicate Formed(t: Tables, v: Version) {
    var whole := v.root.Seed? && v.number == 1 && v in t.versions && FormedFrom(t, v) && Eligible(t, v.root.episodes, v.root.outcomes);
    whole
  }

  /** The formation links are exactly what the formation ref hashes, all of one owner. */
  predicate FormedFrom(t: Tables, v: Version)
    requires v.root.Seed?
  {
    var whole :=
      && BasisIn(t, v, {Formation}) == (set g | g in v.root.episodes)
      && OutcomesIn(t, v, Formation) == (set o | o in v.root.outcomes)
      && (forall i :: 0 <= i < |v.root.episodes| ==> v.root.episodes[i].run.owner == v.root.owner);
    whole
  }

  predicate Eligible(t: Tables, eps: seq<Group>, outs: seq<OutcomeKey>) {
    SealedBasis(t, eps) || (|eps| == 1 && outs == [] && SituationBy(t, eps[0], true))
  }

  ghost predicate MemoryOk(t: Tables) {
    && StoreOk(t.versions) && TextsOk(t.versions) && FeedOnce(t.basis)
    && (forall b | b in t.basis :: BasisOk(t, b)) && (forall b | b in t.outcomeBasis :: OutcomeBasisOk(t, b))
    && (forall v | v in t.versions && v.root.Seed? && v.number == 1 :: Formed(t, v))
    && (forall v | v in t.versions :: t.versions[v].at <= t.now)
  }

  /* ---- growth keeps the row facts ---- */

  lemma BasisInGrows(t: Tables, t': Tables, v: Version)
    requires BasisGrows(t, t') && v in t.versions
    ensures BasisIn(t', v, {Formation}) == BasisIn(t, v, {Formation}) && BasisIn(t', v, {Revision}) == BasisIn(t, v, {Revision})
    ensures Anchors(t', v) == Anchors(t, v)
    ensures OutcomesIn(t', v, Revision) == OutcomesIn(t, v, Revision) && OutcomesIn(t', v, Formation) == OutcomesIn(t, v, Formation)
  {
  }

  lemma FedGrows(t: Tables, t': Tables, v: Version, g: Group)
    requires Fed(t, v, g) && IntakeGrows(t, t')
    ensures Fed(t', v, g)
  {
    var d :| d in t.deliveries && Chain(t, v, g, d);
    ChainGrows(t, t', v, g, d);
  }

  lemma AttributedGrows(t: Tables, t': Tables, v: Version, o: OutcomeKey)
    requires Attributed(t, v, o) && IntakeGrows(t, t')
    ensures Attributed(t', v, o)
  {
    var d :| d in t.outcomes[o].deliveries && Chain(t, v, o.group, d);
    ChainGrows(t, t', v, o.group, d);
  }

  lemma ActedBeforeGrows(t: Tables, t': Tables, g: Group, at: nat)
    requires ActedBefore(t, g, at) && MapGrows(t.links, t'.links)
    ensures ActedBefore(t', g, at)
  {
    var l :| l in t.links && l.group == g && l.role == AgentAct && t.links[l] < at;
    assert l in t'.links && t'.links[l] == t.links[l];
  }

  lemma HasOutcomeGrows(t: Tables, t': Tables, v: Version, g: Group, role: BasisRole)
    requires HasOutcome(t, v, g, role) && t.outcomeBasis <= t'.outcomeBasis
    ensures HasOutcome(t', v, g, role)
  {
    var o :| OutcomeBasis(v, o, role) in t.outcomeBasis && o.group == g;
    assert OutcomeBasis(v, o, role) in t'.outcomeBasis;
  }

  lemma RevisionReasonGrows(t: Tables, t': Tables, v: Version, g: Group)
    requires RevisionReason(t, v, g) && IntakeGrows(t, t') && BasisGrows(t, t') && v in t.versions && Prior(v) in t.versions
    ensures RevisionReason(t', v, g)
  {
    BasisInGrows(t, t', v);
    BasisInGrows(t, t', Prior(v));
    if HasOutcome(t, v, g, Revision) {
      HasOutcomeGrows(t, t', v, g, Revision);
    } else if SituationBy(t, g, true) {
      SituationByGrows(t, t', g, true);
    }
  }

  lemma BasisOkGrows(t: Tables, t': Tables, b: Basis)
    requires BasisOk(t, b) && StoreOk(t.versions) && IntakeGrows(t, t') && BasisGrows(t, t') && VersionsGrow(t.versions, t'.versions)
    ensures BasisOk(t', b)
  {
    FormationRolesGrow(t, t', b.episode);
    assert SameRow(t.versions[b.version], t'.versions[b.version]);
    assert Stored(t.versions, b.version);
    BasisReasonGrows(t, t', b);
  }

  lemma BasisReasonGrows(t: Tables, t': Tables, b: Basis)
    requires b.version in t.versions && b.version in t'.versions && t'.versions[b.version].at == t.versions[b.version].at
    requires BasisReason(t, b) && IntakeGrows(t, t') && BasisGrows(t, t')
    requires b.version.number >= 2 ==> Prior(b.version) in t.versions
    ensures BasisReason(t', b)
  {
    match b.role
    case Formation => ActedBeforeGrows(t, t', b.episode, t.versions[b.version].at);
    case Revision =>
      ActedBeforeGrows(t, t', b.episode, t.versions[b.version].at);
      if b.version.root.Seed? {
        RevisionReasonGrows(t, t', b.version, b.episode);
      }
    case Reenactment => FedGrows(t, t', b.version, b.episode);
    case Inhibition =>
      FedGrows(t, t', b.version, b.episode);
      HasOutcomeGrows(t, t', b.version, b.episode, Inhibition);
    case Support =>
  }

  lemma OutcomeBasisOkGrows(t: Tables, t': Tables, b: OutcomeBasis)
    requires OutcomeBasisOk(t, b) && IntakeGrows(t, t') && BasisGrows(t, t') && VersionsGrow(t.versions, t'.versions)
    ensures OutcomeBasisOk(t', b)
  {
    match b.role
    case Formation =>
    case Inhibition => AttributedGrows(t, t', b.version, b.outcome);
    case Revision => AttributedGrows(t, t', Prior(b.version), b.outcome);
    case _ =>
  }

  lemma SealedBasisGrows(t: Tables, t': Tables, eps: seq<Group>)
    requires SealedBasis(t, eps) && IntakeGrows(t, t') && SealedKept(t, t')
    ensures SealedBasis(t', eps)
  {
    SealedPartsGrow(t, t', eps);
  }

  lemma SealedPartsGrow(t: Tables, t': Tables, eps: seq<Group>)
    requires Experienced(t, eps) && SealedSourcesDiffer(t, eps) && IntakeGrows(t, t') && SealedKept(t, t')
    ensures Experienced(t', eps) && SealedSourcesDiffer(t', eps)
  {
    ExperiencedGrows(t, t', eps);
    SealedSourcesGrow(t, t', eps);
  }

  lemma ExperiencedGrows(t: Tables, t': Tables, eps: seq<Group>)
    requires Experienced(t, eps) && IntakeGrows(t, t')
    ensures Experienced(t', eps)
    ensures forall i :: 0 <= i < |eps| ==> Materialized(t.links.Keys, eps[i])
  {
    forall i | 0 <= i < |eps|
      ensures FormationRoles(t', eps[i]) && SituationBy(t', eps[i], false) && Materialized(t.links.Keys, eps[i])
    {
      FormationRolesGrow(t, t', eps[i]);
      SituationByGrows(t, t', eps[i], false);
      RolesMaterialize(t, eps[i]);
    }
  }

  lemma SealedSourcesGrow(t: Tables, t': Tables, eps: seq<Group>)
    requires SealedSourcesDiffer(t, eps) && SealedKept(t, t')
    requires forall i :: 0 <= i < |eps| ==> Materialized(t.links.Keys, eps[i])
    ensures SealedSourcesDiffer(t', eps)
  {
    forall l | l in t'.links && l.group in eps && l.role != OutcomeRole ensures l in t.links {
      var i :| 0 <= i < |eps| && eps[i] == l.group;
    }
  }

  lemma FormedGrows(t: Tables, t': Tables, v: Version)
    requires Formed(t, v) && Extends(t, t')
    ensures Formed(t', v)
  {
    BasisInGrows(t, t', v);
    EligibleGrows(t, t', v.root.episodes, v.root.outcomes);
  }

  lemma EligibleGrows(t: Tables, t': Tables, eps: seq<Group>, outs: seq<OutcomeKey>)
    requires Eligible(t, eps, outs) && IntakeGrows(t, t') && SealedKept(t, t')
    ensures Eligible(t', eps, outs)
  {
    if SealedBasis(t, eps) {
      SealedBasisGrows(t, t', eps);
    } else {
      SituationByGrows(t, t', eps[0], true);
    }
  }

  /** Transactions that leave versions and basis alone keep the memory facts. */
  lemma MemoryGrows(t: Tables, t': Tables)
    requires MemoryOk(t) && Extends(t, t') && t'.versions == t.versions && t'.basis == t.basis && t'.outcomeBasis == t.outcomeBasis
    ensures MemoryOk(t')
  {
    forall b | b in t'.basis ensures BasisOk(t', b) {
      BasisOkGrows(t, t', b);
    }
    forall b | b in t'.outcomeBasis ensures OutcomeBasisOk(t', b) {
      OutcomeBasisOkGrows(t, t', b);
    }
    forall v | v in t'.versions && v.root.Seed? && v.number == 1 ensures Formed(t', v) {
      FormedGrows(t, t', v);
    }
  }
}
