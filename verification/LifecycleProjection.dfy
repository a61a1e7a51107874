/** Every lifecycle transaction is a sequence of canonical commits of the
    projection model, so what holds of the index holds of the lifecycle's own
    Episodes and versions. */
module LifecycleProjection {
  import opened Refs
  import opened Causal
  import opened LifecycleModel
  import opened LifecycleSafety
  import opened LifecycleIntake
  import opened LifecycleCommit
  import opened LifecycleChanges
  import opened LifecycleBatch
  import opened LifecycleTheorems
  import LifecycleResults
  import Intake
  import P = ProjectionModel
  import PS = ProjectionSafety

  /** The refs documents carry for structured identities. */
  datatype Names = Names(episode: Group -> Ref, root: Root -> Ref)

  ghost predicate Good(n: Names) {
    && (forall a, b :: n.episode(a) == n.episode(b) ==> a == b) && (forall a, b :: n.root(a) == n.root(b) ==> a == b)
    && (forall a :: n.episode(a) != "") && (forall a :: n.root(a) != "")
  }

  function ScopeOf(o: Owner): P.Scope {
    P.Scope(o.tenant, o.agent, o.relationshipRef)
  }

  function RoleOf(r: Role): P.Role {
    match r
    case Situation => P.Situation
    case AgentAct => P.AgentAct
    case _ => P.Outcome
  }

  function EpisodeOf(n: Names, g: Group): P.DocRef {
    P.EpisodeRef(n.episode(g))
  }

  function LinkOf(l: Link): P.Link {
    P.Link(RoleOf(l.role), l.source)
  }

  function LinksOf(links: set<Link>, g: Group): set<P.Link> {
    set l | l in links && l.group == g :: LinkOf(l)
  }

  function KindOf(r: Root): P.Kind {
    if r.Seed? then P.Disposition else P.Recollection
  }

  function DocOf(n: Names, v: Version): P.VersionKey {
    P.VersionKey(KindOf(v.root), P.VersionRef(n.root(v.root), v.number))
  }

  function RowOf(n: Names, v: Version, row: VersionRow): P.VersionRow {
    P.VersionRow(n.root(v.root), v.number, ScopeOf(v.root.owner), row.text, row.active)
  }

  /* ---- the two sets of tables describe the same documents ---- */

  ghost predicate EpisodeShown(n: Names, links: set<Link>, episodes: map<P.DocRef, P.EpisodeRow>, g: Group) {
    && (Materialized(links, g) <==> EpisodeOf(n, g) in episodes)
    && (Materialized(links, g) ==> episodes[EpisodeOf(n, g)] == P.EpisodeRow(ScopeOf(g.run.owner), LinksOf(links, g)))
  }

  ghost predicate EpisodesShown(n: Names, links: set<Link>, episodes: map<P.DocRef, P.EpisodeRow>) {
    && (forall g :: EpisodeShown(n, links, episodes, g)) && (forall r | r in episodes :: exists g :: r == EpisodeOf(n, g))
    && (forall l | l in links :: l.role != UnknownRole)
  }

  ghost predicate VersionShown(n: Names, versions: map<Version, VersionRow>, shown: map<P.VersionKey, P.VersionRow>, v: Version) {
    (v in versions <==> DocOf(n, v) in shown) && (v in versions ==> shown[DocOf(n, v)] == RowOf(n, v, versions[v]))
  }

  ghost predicate VersionsShown(n: Names, versions: map<Version, VersionRow>, shown: map<P.VersionKey, P.VersionRow>) {
    (forall v :: VersionShown(n, versions, shown, v)) && (forall k | k in shown :: exists v :: k == DocOf(n, v))
  }

  ghost predicate Projects(n: Names, t: Tables, p: P.Tables) {
    EpisodesShown(n, t.links.Keys, p.episodes) && VersionsShown(n, t.versions, p.versions)
  }

  lemma DocInjective(n: Names, v: Version, w: Version)
    requires Good(n) && DocOf(n, v) == DocOf(n, w)
    ensures v == w
  {
  }

  /* ---- one canonical change ---- */

  /** Canonical commits alone: the projector's own state is as it was. */
  ghost predicate Advances(s: P.State, s': P.State) {
    PS.Reaches(s, s') && s'.index == s.index && s'.phase == s.phase && s'.clean == s.clean
  }

  lemma AdvancesSelf(s: P.State)
    ensures Advances(s, s)
  {
    PS.ReachesSelf(s);
  }

  lemma AdvancesAll(a: P.State, b: P.State, c: P.State)
    requires Advances(a, b) && Advances(b, c)
    ensures Advances(a, c)
  {
    PS.ReachesAll(a, b, c);
  }

  lemma Changed(s: P.State, c: P.Change) returns (s': P.State)
    requires P.ChangeEnabled(s.tables, c) && P.ChangeOps(s.tables, s.ops, c).Some?
    ensures Advances(s, s') && s'.tables == P.ChangeTables(s.tables, c)
  {
    PS.ReachesSelf(s);
    PS.ReachesNext(s, s, P.Commit(c));
    s' := P.Do(s, P.Commit(c));
  }

  /* ---- links ---- */

  function LinkChange(n: Names, links: set<Link>, l: Link): P.Change {
    P.LinkEpisode(EpisodeOf(n, l.group), ScopeOf(l.group.run.owner), LinksOf(links, l.group), LinkOf(l))
  }

  lemma LinksGrow(links: set<Link>, l: Link, g: Group)
    ensures LinksOf(links + {l}, g) == if g == l.group then LinksOf(links, g) + {LinkOf(l)} else LinksOf(links, g)
  {
    forall x | x in LinksOf(links, g) ensures x in LinksOf(links + {l}, g) {
      var m :| m in links && m.group == g && LinkOf(m) == x;
      assert m in links + {l};
    }
    if g == l.group {
      assert l in links + {l};
    }
  }

  lemma LinkIsNew(links: set<Link>, l: Link)
    requires l !in links && l.role != UnknownRole && forall m | m in links :: m.role != UnknownRole
    ensures LinkOf(l) !in LinksOf(links, l.group)
  {
  }

  lemma OtherEpisodeShown(n: Names, links: set<Link>, episodes: map<P.DocRef, P.EpisodeRow>, l: Link, g: Group)
    requires EpisodeShown(n, links, episodes, g) && g != l.group
    ensures EpisodeShown(n, links + {l}, episodes, g)
  {
    Intake.OnlyThisGroup(links, l, g);
    LinksGrow(links, l, g);
  }

  /** The group stays open: no document changes. */
  lemma OpenLink(n: Names, links: set<Link>, episodes: map<P.DocRef, P.EpisodeRow>, l: Link)
    requires EpisodesShown(n, links, episodes) && l.role != UnknownRole && !Materialized(links + {l}, l.group)
    ensures EpisodesShown(n, links + {l}, episodes)
  {
    forall g ensures EpisodeShown(n, links + {l}, episodes, g) {
      assert EpisodeShown(n, links, episodes, g);
      if g != l.group {
        OtherEpisodeShown(n, links, episodes, l, g);
      } else if Materialized(links, g) {
        MaterializedGrows(links, links + {l}, g);
      }
    }
  }

  lemma EpisodeInserted(n: Names, links: set<Link>, episodes: map<P.DocRef, P.EpisodeRow>, l: Link)
    requires Good(n) && EpisodesShown(n, links, episodes) && l.role != UnknownRole && Materialized(links + {l}, l.group)
    ensures EpisodesShown(n, links + {l},
                          episodes[EpisodeOf(n, l.group) := P.EpisodeRow(ScopeOf(l.group.run.owner), LinksOf(links + {l}, l.group))])
  {
    var episodes' := episodes[EpisodeOf(n, l.group) := P.EpisodeRow(ScopeOf(l.group.run.owner), LinksOf(links + {l}, l.group))];
    forall g ensures EpisodeShown(n, links + {l}, episodes', g) {
      assert EpisodeShown(n, links, episodes, g);
      if g != l.group {
        OtherEpisodeShown(n, links, episodes, l, g);
        assert EpisodeOf(n, g) != EpisodeOf(n, l.group);
      }
    }
  }

  lemma LinkEnabled(n: Names, links: set<Link>, p: P.Tables, l: Link)
    requires EpisodesShown(n, links, p.episodes) && l !in links && l.role != UnknownRole && Materialized(links + {l}, l.group)
    requires Materialized(links, l.group) ==> l.role == OutcomeRole
    ensures P.ChangeEnabled(p, LinkChange(n, links + {l}, l))
    ensures P.ChangeTables(p, LinkChange(n, links + {l}, l)) ==
            p.(episodes := p.episodes[EpisodeOf(n, l.group) := P.EpisodeRow(ScopeOf(l.group.run.owner), LinksOf(links + {l}, l.group))])
  {
    assert EpisodeShown(n, links, p.episodes, l.group);
    LinksGrow(links, l, l.group);
    LinkIsNew(links, l);
  }

  lemma LinkProjects(n: Names, links: set<Link>, s: P.State, l: Link) returns (s': P.State)
    requires Good(n) && EpisodesShown(n, links, s.tables.episodes) && l.role != UnknownRole && l.source != ""
    requires l !in links && Materialized(links, l.group) ==> l.role == OutcomeRole
    ensures Advances(s, s') && EpisodesShown(n, links + {l}, s'.tables.episodes) && s'.tables.versions == s.tables.versions
  {
    if l in links || !Materialized(links + {l}, l.group) {
      s' := s;
      AdvancesSelf(s);
      if l in links {
        assert links + {l} == links;
      } else {
        OpenLink(n, links, s.tables.episodes, l);
      }
    } else {
      LinkEnabled(n, links, s.tables, l);
      EpisodeInserted(n, links, s.tables.episodes, l);
      s' := Changed(s, LinkChange(n, links + {l}, l));
    }
  }

  /* ---- versions ---- */

  function FormChange(n: Names, root: Root, text: string): P.Change {
    P.Form(KindOf(root), n.root(root), ScopeOf(root.owner), text)
  }

  lemma RootIsNew(n: Names, versions: map<Version, VersionRow>, shown: map<P.VersionKey, P.VersionRow>, root: Root)
    requires Good(n) && StoreOk(versions) && VersionsShown(n, versions, shown) && Version(root, 1) !in versions
    ensures forall k | k in shown && k.kind == KindOf(root) :: shown[k].root != n.root(root)
  {
    forall k | k in shown && k.kind == KindOf(root) ensures shown[k].root != n.root(root) {
      var v :| k == DocOf(n, v);
      assert VersionShown(n, versions, shown, v) && Stored(versions, v);
      LifecycleResults.PriorsExist(versions, v, 1);
    }
  }

  lemma VersionInserted(n: Names, versions: map<Version, VersionRow>, shown: map<P.VersionKey, P.VersionRow>, v: Version, row: VersionRow)
    requires Good(n) && VersionsShown(n, versions, shown)
    ensures VersionsShown(n, versions[v := row], shown[DocOf(n, v) := RowOf(n, v, row)])
  {
    var versions', shown' := versions[v := row], shown[DocOf(n, v) := RowOf(n, v, row)];
    forall u ensures VersionShown(n, versions', shown', u) {
      assert VersionShown(n, versions, shown, u);
      if DocOf(n, u) == DocOf(n, v) {
        DocInjective(n, u, v);
      }
    }
  }

  lemma FormProjects(n: Names, versions: map<Version, VersionRow>, s: P.State, root: Root, row: VersionRow) returns (s': P.State)
    requires Good(n) && StoreOk(versions) && VersionsShown(n, versions, s.tables.versions) && Version(root, 1) !in versions && row.active
    ensures Advances(s, s') && VersionsShown(n, versions[Version(root, 1) := row], s'.tables.versions)
    ensures s'.tables.episodes == s.tables.episodes
  {
    RootIsNew(n, versions, s.tables.versions, root);
    VersionInserted(n, versions, s.tables.versions, Version(root, 1), row);
    RootOfVersionName(n.root(root), 1);
    s' := Changed(s, FormChange(n, root, row.text));
  }

  function ReviseChange(n: Names, v: Version, text: string): P.Change {
    P.Revise(KindOf(v.root), P.VersionRef(n.root(v.root), v.number), text)
  }

  lemma RevisionInserted(n: Names, versions: map<Version, VersionRow>, shown: map<P.VersionKey, P.VersionRow>, v: Version, row: VersionRow)
    requires Good(n) && VersionsShown(n, versions, shown) && v in versions
    ensures VersionsShown(n, Revised(versions, v, row),
                          shown[DocOf(n, v) := RowOf(n, v, versions[v].(active := false))][DocOf(n, Next(v)) := RowOf(n, Next(v), row)])
  {
    VersionInserted(n, versions, shown, v, versions[v].(active := false));
    VersionInserted(n, versions[v := versions[v].(active := false)], shown[DocOf(n, v) := RowOf(n, v, versions[v].(active := false))],
                    Next(v), row);
  }

  lemma ReviseProjects(n: Names, versions: map<Version, VersionRow>, s: P.State, v: Version, row: VersionRow) returns (s': P.State)
    requires Good(n) && VersionsShown(n, versions, s.tables.versions) && v in versions && versions[v].active && row.active
    ensures Advances(s, s') && VersionsShown(n, Revised(versions, v, row), s'.tables.versions)
    ensures s'.tables.episodes == s.tables.episodes
  {
    assert VersionShown(n, versions, s.tables.versions, v);
    RevisionInserted(n, versions, s.tables.versions, v, row);
    s' := Changed(s, ReviseChange(n, v, row.text));
  }

  /* ---- what one change does to the documents ---- */

  datatype Effect = Same | FormedOne(root: Root, row: VersionRow) | RevisedOne(version: Version, row: VersionRow)

  ghost predicate Effects(t: Tables, t': Tables, e: Effect) {
    t'.links == t.links &&
    match e
    case Same => t'.versions == t.versions
    case FormedOne(root, row) => Version(root, 1) !in t.versions && row.active && t'.versions == t.versions[Version(root, 1) := row]
    case RevisedOne(v, row) => v in t.versions && t.versions[v].active && row.active && t'.versions == Revised(t.versions, v, row)
  }

  lemma FormEffect(a: Applied, root: Root, text: string, application: Application, outs: seq<OutcomeKey>) returns (e: Effect)
    requires Form(a, root, text, application, outs).Some?
    ensures Effects(a.tables, Form(a, root, text, application, outs).value.tables, e)
  {
    e := FormedOne(root, VersionRow(text, application, true, root.job, a.tables.now));
  }

  lemma ReviseEffect(a: Applied, v: Version, text: string, job: Ref, eps: seq<Group>, outs: seq<OutcomeKey>) returns (e: Effect)
    requires Revise(a, v, text, job, eps, outs).Some?
    ensures Effects(a.tables, Revise(a, v, text, job, eps, outs).value.tables, e)
  {
    e := RevisedOne(v, VersionRow(text, a.tables.versions[v].application, true, job, a.tables.now));
  }

  lemma NewEffect(a: Applied, d: Desk, c: Change) returns (e: Effect)
    requires d.window.episodes != [] && ApplyNew(a, d, c).Some?
    ensures Effects(a.tables, ApplyNew(a, d, c).value.tables, e)
  {
    var owner, text, eps := OwnerOf(d.window), Trim(c.text), CitedEpisodes(c.basis);
    e := Same;
    if c.target == NewRecollection {
      if !TextTaken(a.tables, owner, false, c.application, text, {}) {
        e := FormEffect(a, Recollection(owner, d.window.job, c.application, text, eps), text, c.application, []);
      }
    } else if !TextTaken(a.tables, owner, true, Self, text, {}) {
      e := FormEffect(a, Seed(owner, d.window.job, text, eps, NewOutcomes(c)), text, DispositionApplication(owner), NewOutcomes(c));
    }
  }

  lemma RecollectionEffect(a: Applied, d: Desk, v: Version, c: Change) returns (e: Effect)
    requires v in d.recalled && ApplyRecollection(a, d, v, c).Some?
    ensures Effects(a.tables, ApplyRecollection(a, d, v, c).value.tables, e)
  {
    var text := Trim(c.text);
    e := Same;
    if c.op != Keep && text != "" && text != d.recalled[v].text
       && !TextTaken(a.tables, v.root.owner, false, d.recalled[v].application, text, {v}) {
      e := ReviseEffect(a, v, text, d.window.job, CitedEpisodes(c.basis), []);
    }
  }

  lemma {:induction false} ReenactKeepsLinks(t: Tables, v: Version, eps: seq<Group>)
    ensures ReenactAll(t, v, eps).links == t.links && ReenactAll(t, v, eps).versions == t.versions
    decreases |eps|
  {
    if eps != [] {
      ReenactKeepsLinks(t, v, eps[..|eps| - 1]);
    }
  }

  lemma RevisionEffect(a: Applied, d: Desk, v: Version, c: Change) returns (e: Effect)
    requires v in d.targets && ApplyRevision(a, d, v, c).Some?
    ensures Effects(a.tables, ApplyRevision(a, d, v, c).value.tables, e)
  {
    e := Same;
    if c.text != "" && c.text != d.targets[v].text && !TextTaken(a.tables, v.root.owner, true, Self, c.text, {v}) {
      e := ReviseEffect(a, v, c.text, d.window.job, CitedEpisodes(c.basis), if c.op == Adapt then [] else CitedOutcomes(c.basis));
    }
  }

  lemma DispositionEffect(a: Applied, d: Desk, v: Version, c: Change) returns (e: Effect)
    requires v in d.targets && ApplyDisposition(a, d, v, c).Some?
    ensures Effects(a.tables, ApplyDisposition(a, d, v, c).value.tables, e)
  {
    e := Same;
    if c.op == Reenact {
      ReenactKeepsLinks(a.tables, v, CitedEpisodes(c.basis));
    } else if c.op != Inhibit {
      e := RevisionEffect(a, d, v, c);
    }
  }

  lemma ChangeEffect(a: Applied, d: Desk, c: Change) returns (e: Effect)
    requires d.window.episodes != [] && ApplyChange(a, d, c).Some?
    ensures Effects(a.tables, ApplyChange(a, d, c).value.tables, e)
  {
    e := Same;
    if !c.target.Existing? {
      e := NewEffect(a, d, c);
    } else if c.target.ref.V? && c.target.ref.version in d.recalled {
      e := RecollectionEffect(a, d, c.target.ref.version, c);
    } else if c.target.ref.V? && c.target.ref.version in d.targets {
      e := DispositionEffect(a, d, c.target.ref.version, c);
    }
  }

  lemma EffectProjects(n: Names, t: Tables, t': Tables, e: Effect, s: P.State) returns (s': P.State)
    requires Good(n) && StoreOk(t.versions) && Projects(n, t, s.tables) && Effects(t, t', e)
    ensures Advances(s, s') && Projects(n, t', s'.tables)
  {
    match e
    case Same =>
      AdvancesSelf(s);
      s' := s;
    case FormedOne(root, row) => s' := FormProjects(n, t.versions, s, root, row);
    case RevisedOne(v, row) => s' := ReviseProjects(n, t.versions, s, v, row);
  }

  /* ---- transactions ---- */

  /** A whole batch of changes. */
  lemma {:induction false} BatchProjects(n: Names, t0: Tables, d: Desk, changes: seq<Change>, s: P.State) returns (a: Applied, s': P.State)
    requires Good(n) && Begun(t0, d) && ValidChanges(t0, d, changes) && Projects(n, t0, s.tables)
    ensures ApplyAll(Applied(t0, Receipt({}, {})), d, changes) == Some(a) && Advances(s, s') && Projects(n, a.tables, s'.tables)
    decreases |changes|
  {
    if changes == [] {
      AdvancesSelf(s);
      a, s' := Applied(t0, Receipt({}, {})), s;
    } else {
      var m := |changes| - 1;
      var before;
      before, a := LastChange(t0, d, changes);
      var _, mid := BatchProjects(n, t0, d, changes[..m], s);
      s' := ChangeProjects(n, before, d, changes[m], a, mid);
      AdvancesAll(s, mid, s');
    }
  }

  lemma LastChange(t0: Tables, d: Desk, changes: seq<Change>) returns (before: Applied, a: Applied)
    requires Begun(t0, d) && ValidChanges(t0, d, changes) && changes != []
    ensures var m, start := |changes| - 1, Applied(t0, Receipt({}, {}));
            && ValidChanges(t0, d, changes[..m]) && ApplyAll(start, d, changes[..m]) == Some(before)
            && ApplyAll(start, d, changes) == Some(a) && ApplyChange(before, d, changes[m]) == Some(a)
    ensures StoreOk(before.tables.versions)
  {
    ValidPrefix(t0, d, changes);
    before := BatchKept(t0, d, changes[..|changes| - 1]);
    a := BatchKept(t0, d, changes);
  }

  lemma ChangeProjects(n: Names, before: Applied, d: Desk, c: Change, a: Applied, s: P.State) returns (s': P.State)
    requires Good(n) && d.window.episodes != [] && ApplyChange(before, d, c) == Some(a)
    requires StoreOk(before.tables.versions) && Projects(n, before.tables, s.tables)
    ensures Advances(s, s') && Projects(n, a.tables, s'.tables)
  {
    var e := ChangeEffect(before, d, c);
    s' := EffectProjects(n, before.tables, a.tables, e, s);
  }

  lemma CommitProjects(n: Names, t: Tables, w: Window, offer: Offer, snap: Snapshot, changes: seq<Change>, s: P.State) returns (s': P.State)
    requires Good(n) && Inv(t) && Projects(n, t, s.tables)
    ensures Advances(s, s') && Projects(n, CommitResult(t, CommitTx(t, w, offer, snap, changes)), s'.tables)
  {
    CommitNeverAborts(t, w, offer, snap, changes);
    if Proceeds(t, w, offer, snap) {
      var d := DeskOf(w, offer, snap);
      ProceedsDesk(t, w, offer, snap);
      StartBatch(t, d);
      ChosenValid(t, d, changes);
      var a;
      a, s' := BatchProjects(n, t, d, Chosen(t, d, changes), s);
      CommitIs(t, w, offer, snap, changes, a);
    } else {
      AdvancesSelf(s);
      s' := s;
    }
  }

  /** Observe, and the link of a reported Outcome. */
  lemma AdmitProjects(n: Names, t: Tables, t': Tables, e: Event, b: Binding, s: P.State) returns (s': P.State)
    requires Good(n) && Projects(n, t, s.tables) && Observe(t.sources, t.links.Keys, e, b).Ok?
    requires t'.links.Keys == Observe(t.sources, t.links.Keys, e, b).value.links && t'.versions == t.versions
    ensures Advances(s, s') && Projects(n, t', s'.tables)
  {
    if Complete(b) {
      s' := LinkProjects(n, t.links.Keys, s, Link(GroupOf(e, b), e.key.ref, b.role));
    } else {
      AdvancesSelf(s);
      s' := s;
    }
  }

  lemma ObserveProjects(n: Names, t: Tables, e: Event, b: Binding, s: P.State) returns (s': P.State)
    requires Good(n) && Projects(n, t, s.tables)
    ensures Advances(s, s') && Projects(n, Settle(t, ObserveTx(t, e, b)), s'.tables)
  {
    if ObserveTx(t, e, b).Some? {
      s' := AdmitProjects(n, t, ObserveTx(t, e, b).value, e, b, s);
    } else {
      AdvancesSelf(s);
      s' := s;
    }
  }

  lemma OutcomeProjects(n: Names, t: Tables, key: Ref, e: Event, run: Ref, group: Ref, deliveries: set<DeliveryKey>, related: set<Ref>, s: P.State)
    returns (s': P.State)
    requires Good(n) && Projects(n, t, s.tables)
    ensures Advances(s, s') && Projects(n, Settle(t, OutcomeTx(t, key, e, run, group, deliveries, related)), s'.tables)
  {
    if OutcomeTx(t, key, e, run, group, deliveries, related).Some? {
      var t' := OutcomeFacts(t, key, e, run, group, deliveries, related);
      s' := AdmitProjects(n, t, t', e, Binding(run, group, OutcomeRole), s);
    } else {
      AdvancesSelf(s);
      s' := s;
    }
  }

  lemma QuietProjects(n: Names, ls: State, step: Step, s: P.State)
    requires Projects(n, ls.tables, s.tables) && (step.SelectStep? || step.DeliverStep? || step.SnapshotStep?)
    ensures Projects(n, TablesAfter(ls, step), s.tables)
  {
    IntakeKeepsMemory(ls, step);
    QuietKeepsLinks(ls, step);
  }

  lemma QuietKeepsLinks(ls: State, step: Step)
    requires step.SelectStep? || step.DeliverStep? || step.SnapshotStep?
    ensures TablesAfter(ls, step).links == ls.tables.links
  {
  }

  /** Each lifecycle step is some canonical commits of the projection model, each
      enabled whatever the projector is in the middle of. */
  lemma StepProjects(n: Names, ls: State, step: Step, s: P.State) returns (s': P.State)
    requires Good(n) && Inv(ls.tables) && Projects(n, ls.tables, s.tables)
    ensures Advances(s, s') && Projects(n, Do(ls, step).tables, s'.tables)
  {
    if step.ObserveStep? || step.OutcomeStep? {
      s' := EvidenceStepProjects(n, ls, step, s);
    } else if step.CommitStep? {
      s' := CommitStepProjects(n, ls, step, s);
    } else {
      AdvancesSelf(s);
      s' := s;
      QuietProjects(n, ls, step, s);
    }
  }

  lemma EvidenceStepProjects(n: Names, ls: State, step: Step, s: P.State) returns (s': P.State)
    requires Good(n) && Projects(n, ls.tables, s.tables) && (step.ObserveStep? || step.OutcomeStep?)
    ensures Advances(s, s') && Projects(n, TablesAfter(ls, step), s'.tables)
  {
    if step.ObserveStep? {
      s' := ObserveProjects(n, ls.tables, step.event, step.binding, s);
    } else {
      s' := OutcomeProjects(n, ls.tables, step.key, step.event, step.runRef, step.group, step.deliveries, step.related, s);
    }
  }

  lemma CommitStepProjects(n: Names, ls: State, step: Step, s: P.State) returns (s': P.State)
    requires Good(n) && Inv(ls.tables) && Projects(n, ls.tables, s.tables) && step.CommitStep?
    ensures Advances(s, s') && Projects(n, TablesAfter(ls, step), s'.tables)
  {
    var t' := CommitStepResult(ls, step);
    if step.pid in ls.snapshots {
      s' := CommitProjects(n, ls.tables, ls.snapshots[step.pid].0, step.offer, ls.snapshots[step.pid].1, step.changes, s);
    } else {
      AdvancesSelf(s);
      s' := s;
    }
  }

  lemma EmptyProjects(n: Names)
    ensures Projects(n, Empty(), P.Init().tables)
  {
    forall g ensures !Materialized({}, g) {
      if Materialized({}, g) {
        var _ := MaterializedHasAct({}, g);
      }
    }
  }

  /* ---- lifecycle and projector together ---- */

  /** Both have run, in any order, and describe the same documents. */
  ghost predicate Joint(n: Names, ls: State, s: P.State) {
    Good(n) && Reachable(ls) && PS.Reaches(P.Init(), s) && Projects(n, ls.tables, s.tables)
  }

  lemma JointStart(n: Names)
    requires Good(n)
    ensures Joint(n, State(Empty(), map[]), P.Init())
  {
    ReachableEmpty();
    PS.ReachesSelf(P.Init());
    EmptyProjects(n);
  }

  lemma JointLifecycle(n: Names, ls: State, s: P.State, step: Step) returns (s': P.State)
    requires Joint(n, ls, s)
    ensures Joint(n, Do(ls, step), s') && Advances(s, s')
  {
    ReachableInv(ls);
    s' := StepProjects(n, ls, step, s);
    ReachableNext(ls, step);
    PS.ReachesAll(P.Init(), s, s');
  }

  lemma JointProjector(n: Names, ls: State, s: P.State, step: P.Step)
    requires Joint(n, ls, s) && P.Enabled(s, step) && !step.Commit?
    ensures Joint(n, ls, P.Do(s, step))
  {
    PS.ReachesNext(P.Init(), s, step);
    ProjectorKeepsTables(s, step);
  }

  lemma ProjectorKeepsTables(s: P.State, step: P.Step)
    requires P.Enabled(s, step) && !step.Commit?
    ensures P.Do(s, step).tables == s.tables
  {
  }

  function EpisodeKey(n: Names, g: Group): P.Key {
    P.Key(P.Episode, EpisodeOf(n, g), ScopeOf(g.run.owner))
  }

  function MemoryKey(n: Names, v: Version): P.Key {
    P.Key(KindOf(v.root), P.VersionRef(n.root(v.root), v.number), ScopeOf(v.root.owner))
  }

  ghost predicate IsEpisode(n: Names, t: Tables, k: P.Key) {
    exists g :: k == EpisodeKey(n, g) && Materialized(t.links.Keys, g)
  }

  ghost predicate IsActiveMemory(n: Names, t: Tables, k: P.Key) {
    exists v :: k == MemoryKey(n, v) && v in t.versions && t.versions[v].active
  }

  lemma EpisodeIsCanonical(n: Names, t: Tables, p: P.Tables, g: Group)
    requires Projects(n, t, p) && Materialized(t.links.Keys, g)
    ensures P.Canon(p, EpisodeKey(n, g)) == Some(P.Rendered(EpisodeOf(n, g), LinksOf(t.links.Keys, g)))
  {
    assert EpisodeShown(n, t.links.Keys, p.episodes, g);
  }

  lemma MemoryIsCanonical(n: Names, t: Tables, p: P.Tables, v: Version)
    requires Projects(n, t, p) && v in t.versions && t.versions[v].active
    ensures P.Canon(p, MemoryKey(n, v)) == Some(P.Plain(t.versions[v].text))
  {
    assert VersionShown(n, t.versions, p.versions, v);
  }

  lemma CanonIsMemory(n: Names, t: Tables, p: P.Tables, k: P.Key)
    requires Projects(n, t, p)
    ensures P.Canon(p, k).Some? <==> IsEpisode(n, t, k) || IsActiveMemory(n, t, k)
  {
    if P.Canon(p, k).Some? {
      if k.kind == P.Episode {
        var g :| k.ref == EpisodeOf(n, g);
        assert EpisodeShown(n, t.links.Keys, p.episodes, g);
        assert k == EpisodeKey(n, g);
      } else {
        var v :| P.VersionKey(k.kind, k.ref) == DocOf(n, v);
        assert VersionShown(n, t.versions, p.versions, v);
        assert k == MemoryKey(n, v);
      }
    }
    if IsEpisode(n, t, k) {
      var g :| k == EpisodeKey(n, g) && Materialized(t.links.Keys, g);
      EpisodeIsCanonical(n, t, p, g);
    }
    if IsActiveMemory(n, t, k) {
      var v :| k == MemoryKey(n, v) && v in t.versions && t.versions[v].active;
      MemoryIsCanonical(n, t, p, v);
    }
  }

  /** End to end: with no operation outstanding and no Rebuild broken off, the index
      holds exactly the Episodes and the active memories of the lifecycle's tables,
      each with its current content. */
  lemma QuiescentIndexIsMemory(n: Names, ls: State, s: P.State)
    requires Joint(n, ls, s) && PS.Quiescent(s) && s.clean
    ensures forall k :: k in s.index <==> IsEpisode(n, ls.tables, k) || IsActiveMemory(n, ls.tables, k)
    ensures forall g | Materialized(ls.tables.links.Keys, g) ::
              EpisodeKey(n, g) in s.index && s.index[EpisodeKey(n, g)] == P.Rendered(EpisodeOf(n, g), LinksOf(ls.tables.links.Keys, g))
    ensures forall v | v in ls.tables.versions && ls.tables.versions[v].active ::
              MemoryKey(n, v) in s.index && s.index[MemoryKey(n, v)] == P.Plain(ls.tables.versions[v].text)
  {
    IndexIsMemory(n, ls.tables, s);
  }

  lemma IndexIsMemory(n: Names, t: Tables, s: P.State)
    requires Projects(n, t, s.tables) && PS.Reaches(P.Init(), s) && PS.Quiescent(s) && s.clean
    ensures forall k :: k in s.index <==> IsEpisode(n, t, k) || IsActiveMemory(n, t, k)
    ensures forall g | Materialized(t.links.Keys, g) ::
              EpisodeKey(n, g) in s.index && s.index[EpisodeKey(n, g)] == P.Rendered(EpisodeOf(n, g), LinksOf(t.links.Keys, g))
    ensures forall v | v in t.versions && t.versions[v].active ::
              MemoryKey(n, v) in s.index && s.index[MemoryKey(n, v)] == P.Plain(t.versions[v].text)
  {
    PS.QuiescentIndexIsCanonical(s);
    forall k ensures k in s.index <==> IsEpisode(n, t, k) || IsActiveMemory(n, t, k) {
      P.CanonKeysAreDocuments(s.tables, k);
      CanonIsMemory(n, t, s.tables, k);
    }
    forall g | Materialized(t.links.Keys, g)
      ensures EpisodeKey(n, g) in s.index && s.index[EpisodeKey(n, g)] == P.Rendered(EpisodeOf(n, g), LinksOf(t.links.Keys, g))
    {
      EpisodeIsCanonical(n, t, s.tables, g);
      P.CanonKeysAreDocuments(s.tables, EpisodeKey(n, g));
    }
    forall v | v in t.versions && t.versions[v].active
      ensures MemoryKey(n, v) in s.index && s.index[MemoryKey(n, v)] == P.Plain(t.versions[v].text)
    {
      MemoryIsCanonical(n, t, s.tables, v);
      P.CanonKeysAreDocuments(s.tables, MemoryKey(n, v));
    }
  }
}
