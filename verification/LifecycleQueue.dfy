/** One system: intake feeds the Job queue, Jobs are scheduled, and the engine works
    on exactly the windows the queue froze. */
module LifecycleQueue {
  import opened Refs
  import opened Causal
  import opened LifecycleModel
  import opened LifecycleSafety
  import opened LifecycleIntake
  import opened LifecycleTheorems
  import opened LifecycleJobs
  import opened LifecycleAnchors
  import Intake
  import JobWindows
  import Jobs = JobModel
  import JobSafety
  import JobTheorems

  ghost predicate Named(n: Names) {
    Injective(n) && (forall g :: n.episode(g) != "") && (forall o :: n.outcome(o) != "")
  }

  /* ---- acts ---- */

  datatype Act =
    /** Observe or ReportOutcome changed an Episode and enqueued its state. */
    | Report(step: Step, intake: Jobs.Step)
    /** Evidence that changed no Episode, a selection, or a delivery. */
    | Note(step: Step)
    /** Lease, complete, release, a failing Worker or a crash. */
    | Schedule(action: Jobs.Step)
    /** ConsolidateWindow's snapshot, and whether the window loaded. */
    | LookUp(pid: nat, window: Window, offer: Offer, fit: bool)
    /** ConsolidateWindow's commit, and whether it committed or found a receipt. */
    | Conclude(pid: nat, offer: Offer, changes: seq<Change>, answered: bool)

  predicate IsEvidence(step: Step) {
    step.ObserveStep? || step.OutcomeStep?
  }

  function BindingOf(step: Step): Binding
    requires IsEvidence(step)
  {
    if step.ObserveStep? then step.binding else Binding(step.runRef, step.group, OutcomeRole)
  }

  function Touched(step: Step): Group
    requires IsEvidence(step)
  {
    GroupOf(step.event, BindingOf(step))
  }

  function EvidenceAfter(t: Tables, step: Step): Tables
    requires IsEvidence(step)
  {
    if step.ObserveStep? then Settle(t, ObserveTx(t, step.event, step.binding))
    else Settle(t, OutcomeTx(t, step.key, step.event, step.runRef, step.group, step.deliveries, step.related))
  }

  predicate Accepted(t: Tables, step: Step)
    requires IsEvidence(step)
  {
    if step.ObserveStep? then ObserveTx(t, step.event, step.binding).Some?
    else OutcomeTx(t, step.key, step.event, step.runRef, step.group, step.deliveries, step.related).Some?
  }

  /** The transaction enqueues the Episode: it is materialized, and, for Observe, the
      link was new. */
  predicate Feeds(t: Tables, step: Step)
    requires IsEvidence(step)
  {
    && Accepted(t, step) && Complete(BindingOf(step)) && Materialized(EvidenceAfter(t, step).links.Keys, Touched(step))
    && (step.ObserveStep? ==> Link(Touched(step), step.event.key.ref, step.binding.role) !in t.links)
  }

  /** The Outcomes bound to an Episode. */
  function Bound(n: Names, t: Tables, g: Group): set<Ref> {
    set o | o in t.outcomes && o.group == g :: n.outcome(o)
  }

  /** enqueueEpisodeState for this Episode. */
  ghost predicate IsIntake(n: Names, t: Tables, g: Group, i: Jobs.Step, q: Jobs.Queue) {
    && i.Intake? && i.owner == g.run.owner && i.episode == n.episode(g) && i.added == Bound(n, t, g) - q.outcomes.Keys
    && JobWindows.Unique(i.outcomes) && (forall x :: x in i.outcomes <==> x in Bound(n, t, g)) && Jobs.FreshJob(q.jobs, i.ref)
  }

  ghost predicate Can(n: Names, ls: State, s: Jobs.Sys, act: Act) {
    match act
    case Report(step, i) =>
      IsEvidence(step) && Feeds(ls.tables, step) && IsIntake(n, EvidenceAfter(ls.tables, step), Touched(step), i, s.q) && Jobs.Enabled(s, i)
    case Note(step) => (IsEvidence(step) && !Feeds(ls.tables, step)) || step.SelectStep? || step.DeliverStep?
    case Schedule(action) => Jobs.Enabled(s, action) && !action.Intake? && !action.Snapshot? && !action.Commit?
    case LookUp(pid, w, offer, fit) => WorksOn(n, s, pid, w) && s.processors[pid].Leased? && (fit <==> !Unfit(ls.tables, w, offer))
    case Conclude(pid, _, _, answered) =>
      && pid in ls.snapshots && WorksOn(n, s, pid, ls.snapshots[pid].0) && s.processors[pid].Prepared?
      && (answered <==> Answered(CommitAnswer(ls, act)))
  }

  /** The lifecycle transaction of an act, if it has one. */
  function LifecycleStep(act: Act): Option<Step> {
    match act
    case Report(step, _) => Some(step)
    case Note(step) => Some(step)
    case Schedule(_) => None
    case LookUp(pid, w, offer, _) => Some(SnapshotStep(pid, w, offer))
    case Conclude(pid, offer, changes, _) => Some(CommitStep(pid, offer, changes))
  }

  function LifecycleAfter(ls: State, act: Act): State {
    if LifecycleStep(act).None? then ls else Do(ls, LifecycleStep(act).value)
  }

  /** The engine's first look-up found the window unfit, or its state did not load. */
  predicate Unfit(t: Tables, w: Window, offer: Offer) {
    FirstLook(t, w) == Some(InvalidWindow) || (FirstLook(t, w).None? && TakeSnapshot(t, w, offer).None?)
  }

  function CommitAnswer(ls: State, act: Act): Committed
    requires act.Conclude? && act.pid in ls.snapshots
  {
    CommitTx(ls.tables, ls.snapshots[act.pid].0, act.offer, ls.snapshots[act.pid].1, act.changes)
  }

  predicate Answered(r: Committed) {
    r.Done? || r.Replayed? || r.WindowConflict?
  }

  /** What the queue and the processor do in it, if anything. */
  function JobsStep(act: Act): Option<Jobs.Step> {
    match act
    case Report(_, i) => Some(i)
    case Note(_) => None
    case Schedule(action) => Some(action)
    case LookUp(pid, _, _, fit) => Some(if fit then Jobs.Snapshot(pid) else Jobs.Fail(pid))
    case Conclude(pid, _, _, answered) => Some(if answered then Jobs.Commit(pid) else Jobs.Fail(pid))
  }

  function JobsAfter(s: Jobs.Sys, act: Act): Jobs.Sys {
    if JobsStep(act).None? || !Jobs.Enabled(s, JobsStep(act).value) then s else Jobs.Do(s, JobsStep(act).value)
  }

  ghost predicate JointRuns(n: Names, ls: State, s: Jobs.Sys, acts: seq<Act>, ls': State, s': Jobs.Sys)
    decreases |acts|
  {
    if acts == [] then ls == ls' && s == s'
    else Can(n, ls, s, acts[0]) && JointRuns(n, LifecycleAfter(ls, acts[0]), JobsAfter(s, acts[0]), acts[1..], ls', s')
  }

  ghost predicate JointReachable(n: Names, ls: State, s: Jobs.Sys) {
    exists acts :: JointRuns(n, State(Empty(), map[]), Jobs.Init(), acts, ls, s)
  }

  /* ---- the queue mirrors the tables ---- */

  ghost predicate EpisodeLinked(n: Names, links: set<Link>, episodes: map<Ref, Owner>, g: Group) {
    && (Materialized(links, g) <==> n.episode(g) in episodes) && (n.episode(g) in episodes ==> episodes[n.episode(g)] == g.run.owner)
  }

  ghost predicate EpisodesLinked(n: Names, links: set<Link>, episodes: map<Ref, Owner>) {
    (forall g :: EpisodeLinked(n, links, episodes, g)) && (forall e | e in episodes :: exists g :: e == n.episode(g))
  }

  ghost predicate OutcomeLinked(n: Names, t: Tables, outcomes: JobWindows.Outcomes, o: OutcomeKey) {
    && (o in t.outcomes && Materialized(t.links.Keys, o.group) <==> n.outcome(o) in outcomes)
    && (n.outcome(o) in outcomes ==> outcomes[n.outcome(o)] == JobWindows.OutcomeRow(o.group.run.owner, n.episode(o.group)))
  }

  ghost predicate OutcomesLinked(n: Names, t: Tables, outcomes: JobWindows.Outcomes) {
    (forall o :: OutcomeLinked(n, t, outcomes, o)) && (forall x | x in outcomes :: exists o :: x == n.outcome(o))
  }

  ghost predicate Linked(n: Names, t: Tables, s: Jobs.Sys) {
    SameReceipts(n, t, s.receipts) && EpisodesLinked(n, t.links.Keys, s.q.episodes) && OutcomesLinked(n, t, s.q.outcomes)
  }

  ghost predicate JointInv(n: Names, ls: State, s: Jobs.Sys) {
    var whole := Named(n) && Inv(ls.tables) && JobSafety.Inv(s) && Linked(n, ls.tables, s);
    whole
  }

  /* ---- intake ---- */

  /** What an evidence transaction may change: one group's links and Outcomes. */
  ghost predicate Added(t: Tables, t': Tables, g: Group) {
    && (forall h | h != g :: Materialized(t'.links.Keys, h) <==> Materialized(t.links.Keys, h))
    && (Materialized(t.links.Keys, g) ==> Materialized(t'.links.Keys, g))
    && t.outcomes.Keys <= t'.outcomes.Keys && (forall o | o in t'.outcomes && o !in t.outcomes :: o.group == g)
    && t'.receipts == t.receipts
  }

  lemma LinkAdds(t: Tables, t': Tables, l: Link)
    requires t'.links.Keys == t.links.Keys + {l} && t'.receipts == t.receipts && t.outcomes.Keys <= t'.outcomes.Keys
    requires forall o | o in t'.outcomes && o !in t.outcomes :: o.group == l.group
    ensures Added(t, t', l.group)
  {
    forall h | h != l.group ensures Materialized(t'.links.Keys, h) <==> Materialized(t.links.Keys, h) {
      Intake.OnlyThisGroup(t.links.Keys, l, h);
    }
    if Materialized(t.links.Keys, l.group) {
      MaterializedGrows(t.links.Keys, t'.links.Keys, l.group);
    }
  }

  lemma ObserveAdds(t: Tables, e: Event, b: Binding)
    ensures Added(t, Settle(t, ObserveTx(t, e, b)), GroupOf(e, b))
  {
    if ObserveTx(t, e, b).Some? && Complete(b) {
      LinkAdds(t, ObserveTx(t, e, b).value, Link(GroupOf(e, b), e.key.ref, b.role));
    }
  }

  lemma OutcomeAdds(t: Tables, key: Ref, e: Event, run: Ref, group: Ref, deliveries: set<DeliveryKey>, related: set<Ref>)
    ensures Added(t, Settle(t, OutcomeTx(t, key, e, run, group, deliveries, related)), GroupOf(e, Binding(run, group, OutcomeRole)))
  {
    if OutcomeTx(t, key, e, run, group, deliveries, related).Some? {
      var t' := OutcomeFacts(t, key, e, run, group, deliveries, related);
      LinkAdds(t, t', Link(GroupOf(e, Binding(run, group, OutcomeRole)), e.key.ref, OutcomeRole));
    }
  }

  lemma EvidenceAdds(t: Tables, step: Step)
    requires IsEvidence(step)
    ensures Added(t, EvidenceAfter(t, step), Touched(step))
  {
    if step.ObserveStep? {
      ObserveAdds(t, step.event, step.binding);
    } else {
      OutcomeAdds(t, step.key, step.event, step.runRef, step.group, step.deliveries, step.related);
    }
  }

  lemma EvidenceIs(ls: State, step: Step)
    requires IsEvidence(step)
    ensures Do(ls, step).tables == EvidenceAfter(ls.tables, step)
  {
  }

  /** Evidence that enqueues nothing leaves materialized Episodes and their Outcomes. */
  ghost predicate Unfed(t: Tables, t': Tables, g: Group) {
    && (Materialized(t'.links.Keys, g) ==> Materialized(t.links.Keys, g) && t'.outcomes.Keys == t.outcomes.Keys)
  }

  lemma ObserveUnfed(t: Tables, e: Event, b: Binding)
    requires ObserveTx(t, e, b).None? || !Complete(b) || !Materialized(Settle(t, ObserveTx(t, e, b)).links.Keys, GroupOf(e, b))
             || Link(GroupOf(e, b), e.key.ref, b.role) in t.links
    ensures Unfed(t, Settle(t, ObserveTx(t, e, b)), GroupOf(e, b))
  {
    if ObserveTx(t, e, b).Some? && Complete(b) && Link(GroupOf(e, b), e.key.ref, b.role) in t.links {
      assert t.links.Keys + {Link(GroupOf(e, b), e.key.ref, b.role)} == t.links.Keys;
    }
  }

  lemma EvidenceUnfed(t: Tables, step: Step)
    requires IsEvidence(step) && !Feeds(t, step)
    ensures Unfed(t, EvidenceAfter(t, step), Touched(step))
  {
    if step.ObserveStep? {
      ObserveUnfed(t, step.event, step.binding);
    }
  }

  lemma UnfedStaysLinked(n: Names, t: Tables, t': Tables, g: Group, s: Jobs.Sys)
    requires Linked(n, t, s) && Added(t, t', g) && Unfed(t, t', g)
    ensures Linked(n, t', s)
  {
    forall key ensures SameReceipt(n, t', s.receipts, key) {
      assert SameReceipt(n, t, s.receipts, key);
    }
    forall h ensures EpisodeLinked(n, t'.links.Keys, s.q.episodes, h) {
      assert EpisodeLinked(n, t.links.Keys, s.q.episodes, h);
    }
    forall o ensures OutcomeLinked(n, t', s.q.outcomes, o) {
      assert OutcomeLinked(n, t, s.q.outcomes, o);
    }
  }

  lemma EpisodesFed(n: Names, t: Tables, t': Tables, g: Group, episodes: map<Ref, Owner>)
    requires Named(n) && EpisodesLinked(n, t.links.Keys, episodes) && Added(t, t', g) && Materialized(t'.links.Keys, g)
    ensures EpisodesLinked(n, t'.links.Keys, episodes[n.episode(g) := g.run.owner])
  {
    var episodes' := episodes[n.episode(g) := g.run.owner];
    forall h ensures EpisodeLinked(n, t'.links.Keys, episodes', h) {
      assert EpisodeLinked(n, t.links.Keys, episodes, h);
    }
  }

  lemma OutcomesFed(n: Names, t: Tables, t': Tables, g: Group, outcomes: JobWindows.Outcomes, added: set<Ref>)
    requires Named(n) && OutcomesLinked(n, t, outcomes) && Added(t, t', g) && Materialized(t'.links.Keys, g)
    requires added == Bound(n, t', g) - outcomes.Keys
    ensures OutcomesLinked(n, t', Jobs.Bind(outcomes, g.run.owner, n.episode(g), added))
  {
    var outcomes' := Jobs.Bind(outcomes, g.run.owner, n.episode(g), added);
    forall o ensures OutcomeLinked(n, t', outcomes', o) {
      OutcomeFed(n, t, t', g, outcomes, added, o);
    }
    forall x | x in outcomes' ensures exists o :: x == n.outcome(o) {
      if x in added {
        var o :| o in t'.outcomes && o.group == g && n.outcome(o) == x;
      }
    }
  }

  lemma OutcomeFed(n: Names, t: Tables, t': Tables, g: Group, outcomes: JobWindows.Outcomes, added: set<Ref>, o: OutcomeKey)
    requires Named(n) && OutcomesLinked(n, t, outcomes) && Added(t, t', g) && Materialized(t'.links.Keys, g)
    requires added == Bound(n, t', g) - outcomes.Keys
    ensures OutcomeLinked(n, t', Jobs.Bind(outcomes, g.run.owner, n.episode(g), added), o)
  {
    assert OutcomeLinked(n, t, outcomes, o);
    assert n.outcome(o) in Bound(n, t', g) <==> o in t'.outcomes && o.group == g by {
      BoundMeans(n, t', g, o);
    }
  }

  lemma BoundMeans(n: Names, t: Tables, g: Group, o: OutcomeKey)
    requires Named(n)
    ensures n.outcome(o) in Bound(n, t, g) <==> o in t.outcomes && o.group == g
  {
  }

  /** On a mirrored queue the enqueue of a fed Episode is always enabled. */
  lemma IntakeIsEnabled(n: Names, ls: State, s: Jobs.Sys, step: Step, i: Jobs.Step)
    requires JointInv(n, ls, s) && IsEvidence(step) && Feeds(ls.tables, step)
    requires IsIntake(n, EvidenceAfter(ls.tables, step), Touched(step), i, s.q)
    ensures Jobs.Enabled(s, i)
  {
    var t, t', g := ls.tables, EvidenceAfter(ls.tables, step), Touched(step);
    EvidenceAdds(t, step);
    assert EpisodeLinked(n, t.links.Keys, s.q.episodes, g);
    IntakeOutcomes(n, t, t', g, s.q.outcomes, i.added, i.outcomes);
    var _, _ := JobSafety.IntakePreserves(s.q, i.owner, i.episode, i.added, i.outcomes, i.ref, i.now);
  }

  lemma IntakeOutcomes(n: Names, t: Tables, t': Tables, g: Group, outcomes: JobWindows.Outcomes, added: set<Ref>, outs: seq<Ref>)
    requires Named(n) && OutcomesLinked(n, t, outcomes) && Added(t, t', g)
    requires added == Bound(n, t', g) - outcomes.Keys && forall x :: x in outs <==> x in Bound(n, t', g)
    ensures "" !in added && added !! outcomes.Keys && Jobs.OutcomesOf(outcomes, g.run.owner, n.episode(g), added, outs)
  {
    forall x | x in outs ensures x in added || (x in outcomes && outcomes[x] == JobWindows.OutcomeRow(g.run.owner, n.episode(g))) {
      var o :| o in t'.outcomes && o.group == g && n.outcome(o) == x;
      assert OutcomeLinked(n, t, outcomes, o);
    }
    forall x | x in outcomes && outcomes[x] == JobWindows.OutcomeRow(g.run.owner, n.episode(g)) ensures x in outs {
      var o :| x == n.outcome(o);
      assert OutcomeLinked(n, t, outcomes, o);
      BoundMeans(n, t', g, o);
    }
  }

  /* ---- scheduled windows ---- */

  lemma GroupNamed(n: Names, links: set<Link>, episodes: map<Ref, Owner>, e: Ref) returns (g: Group)
    requires EpisodesLinked(n, links, episodes) && e in episodes
    ensures n.episode(g) == e && Materialized(links, g) && g.run.owner == episodes[e]
  {
    g :| e == n.episode(g);
    assert EpisodeLinked(n, links, episodes, g);
  }

  lemma OutcomeNamed(n: Names, t: Tables, outcomes: JobWindows.Outcomes, x: Ref) returns (o: OutcomeKey)
    requires OutcomesLinked(n, t, outcomes) && x in outcomes
    ensures n.outcome(o) == x && o in t.outcomes && outcomes[x] == JobWindows.OutcomeRow(o.group.run.owner, n.episode(o.group))
  {
    o :| x == n.outcome(o);
    assert OutcomeLinked(n, t, outcomes, o);
  }

  lemma {:induction false} GroupsNamed(n: Names, links: set<Link>, episodes: map<Ref, Owner>, refs: seq<Ref>) returns (s: seq<Group>)
    requires EpisodesLinked(n, links, episodes) && forall i :: 0 <= i < |refs| ==> refs[i] in episodes
    ensures EpisodeRefs(n, s) == refs
  {
    s := [];
    if refs != [] {
      var rest := GroupsNamed(n, links, episodes, refs[1..]);
      var g := GroupNamed(n, links, episodes, refs[0]);
      s := [g] + rest;
      assert EpisodeRefs(n, s) == [refs[0]] + refs[1..];
    }
  }

  lemma {:induction false} OutcomesNamed(n: Names, t: Tables, outcomes: JobWindows.Outcomes, refs: seq<Ref>) returns (s: seq<OutcomeKey>)
    requires OutcomesLinked(n, t, outcomes) && forall i :: 0 <= i < |refs| ==> refs[i] in outcomes
    ensures OutcomeRefs(n, s) == refs
  {
    s := [];
    if refs != [] {
      var rest := OutcomesNamed(n, t, outcomes, refs[1..]);
      var o := OutcomeNamed(n, t, outcomes, refs[0]);
      s := [o] + rest;
      assert OutcomeRefs(n, s) == [refs[0]] + refs[1..];
    }
  }

  /** The evidence of a Job, as the window of structured identities it names. */
  lemma JobWindowExists(n: Names, t: Tables, q: Jobs.Queue, j: Jobs.Job) returns (w: Window)
    requires EpisodesLinked(n, t.links.Keys, q.episodes) && OutcomesLinked(n, t, q.outcomes) && JobSafety.JobOk(q.episodes, q.outcomes, j)
    ensures w.job == j.ref && EvidenceOf(n, w) == j.evidence
  {
    var eps := GroupsNamed(n, t.links.Keys, q.episodes, j.evidence.episodes);
    var outs := OutcomesNamed(n, t, q.outcomes, j.evidence.outcomes);
    w := Window(j.ref, eps, outs);
  }

  /** A well-formed window, its Outcomes included. */
  predicate Fit(t: Tables, w: Window) {
    WindowOk(t, w) && WindowOutcomesOk(t, w)
  }

  lemma EvidenceEpisodes(n: Names, t: Tables, q: Jobs.Queue, j: Jobs.Job, w: Window, i: nat)
    requires LinksOk(t) && EpisodesLinked(n, t.links.Keys, q.episodes) && Injective(n)
    requires JobSafety.JobOk(q.episodes, q.outcomes, j) && EvidenceOf(n, w) == j.evidence && i < |w.episodes|
    ensures FormationRoles(t, w.episodes[i]) && w.episodes[i].run.owner == j.owner
  {
    assert j.evidence.episodes[i] == n.episode(w.episodes[i]);
    assert EpisodeLinked(n, t.links.Keys, q.episodes, w.episodes[i]);
    MaterializedHasRoles(t, w.episodes[i]);
  }

  lemma EvidenceOutcomes(n: Names, t: Tables, q: Jobs.Queue, j: Jobs.Job, w: Window, i: nat)
    requires Injective(n) && OutcomesLinked(n, t, q.outcomes)
    requires JobSafety.JobOk(q.episodes, q.outcomes, j) && EvidenceOf(n, w) == j.evidence && i < |w.outcomes|
    ensures w.outcomes[i] in t.outcomes && w.outcomes[i].group.run.owner == j.owner && w.outcomes[i].group in w.episodes
  {
    var x := j.evidence.outcomes[i];
    assert x == n.outcome(w.outcomes[i]) && x in q.outcomes;
    assert OutcomeLinked(n, t, q.outcomes, w.outcomes[i]);
    assert q.outcomes[x].episode in j.evidence.episodes;
    var k :| 0 <= k < |j.evidence.episodes| && j.evidence.episodes[k] == q.outcomes[x].episode;
    assert n.episode(w.episodes[k]) == n.episode(w.outcomes[i].group);
  }

  lemma EvidenceUnrepeated(n: Names, w: Window, e: JobWindows.Evidence)
    requires EvidenceOf(n, w) == e && JobWindows.Unique(e.episodes) && JobWindows.Unique(e.outcomes)
    ensures Unique(w.episodes) && Unique(w.outcomes)
  {
    forall i, j | 0 <= i < j < |w.episodes| ensures w.episodes[i] != w.episodes[j] {
      assert e.episodes[i] != e.episodes[j];
    }
    forall i, j | 0 <= i < j < |w.outcomes| ensures w.outcomes[i] != w.outcomes[j] {
      assert e.outcomes[i] != e.outcomes[j];
    }
  }

  lemma JobWindowFits(n: Names, t: Tables, q: Jobs.Queue, j: Jobs.Job, w: Window)
    requires Injective(n) && LinksOk(t) && EpisodesLinked(n, t.links.Keys, q.episodes) && OutcomesLinked(n, t, q.outcomes)
    requires JobSafety.JobOk(q.episodes, q.outcomes, j) && EvidenceOf(n, w) == j.evidence
    ensures Fit(t, w) && OwnerOf(w) == j.owner
  {
    EvidenceUnrepeated(n, w, j.evidence);
    assert |w.episodes| == |j.evidence.episodes| > 0;
    forall i: nat | i < |w.episodes| ensures FormationRoles(t, w.episodes[i]) && w.episodes[i].run.owner == j.owner {
      EvidenceEpisodes(n, t, q, j, w, i);
    }
    forall i: nat | i < |w.outcomes|
      ensures w.outcomes[i] in t.outcomes && w.outcomes[i].group.run.owner == j.owner && w.outcomes[i].group in w.episodes
    {
      EvidenceOutcomes(n, t, q, j, w, i);
    }
  }

  /** The window a processor works on is well formed, and it has one. */
  lemma WorkedWindowFits(n: Names, ls: State, s: Jobs.Sys, pid: nat, w: Window)
    requires JointInv(n, ls, s) && WorksOn(n, s, pid, w)
    ensures Fit(ls.tables, w)
  {
    var p := s.processors[pid];
    var i: nat := WorkedJob(s, pid);
    JobWindowFits(n, ls.tables, s.q, s.q.jobs[i], w);
  }

  lemma WorkedJob(s: Jobs.Sys, pid: nat) returns (i: nat)
    requires JobSafety.Inv(s) && pid in s.processors
    ensures JobSafety.FrozenAt(s.q.jobs, i, s.processors[pid].job, s.processors[pid].evidence)
    ensures JobSafety.JobOk(s.q.episodes, s.q.outcomes, s.q.jobs[i])
    ensures s.processors[pid].Succeeded? ==> JobSafety.Done(s.receipts, s.q.jobs[i])
  {
    var p := s.processors[pid];
    assert JobSafety.ProgressOk(s.q.jobs, s.receipts, s.tokens, p);
    i :| JobSafety.FrozenAt(s.q.jobs, i, p.job, p.evidence) && (p.Succeeded? ==> JobSafety.Done(s.receipts, s.q.jobs[i]));
  }

  /* ---- every act keeps the two sides together ---- */

  lemma SameQueueLinked(n: Names, t: Tables, s: Jobs.Sys, t': Tables, s': Jobs.Sys)
    requires Linked(n, t, s) && t'.links == t.links && t'.outcomes == t.outcomes && t'.receipts == t.receipts
    requires s'.q.episodes == s.q.episodes && s'.q.outcomes == s.q.outcomes && s'.receipts == s.receipts
    ensures Linked(n, t', s')
  {
    forall key ensures SameReceipt(n, t', s'.receipts, key) {
      assert SameReceipt(n, t, s.receipts, key);
    }
    forall o ensures OutcomeLinked(n, t', s'.q.outcomes, o) {
      assert OutcomeLinked(n, t, s.q.outcomes, o);
    }
  }

  lemma ReportLinked(n: Names, t: Tables, s: Jobs.Sys, step: Step, i: Jobs.Step)
    requires Named(n) && Linked(n, t, s) && IsEvidence(step) && Feeds(t, step)
    requires IsIntake(n, EvidenceAfter(t, step), Touched(step), i, s.q) && Jobs.Enabled(s, i)
    ensures Linked(n, EvidenceAfter(t, step), Jobs.Do(s, i))
  {
    var t', g := EvidenceAfter(t, step), Touched(step);
    EvidenceAdds(t, step);
    EpisodesFed(n, t, t', g, s.q.episodes);
    OutcomesFed(n, t, t', g, s.q.outcomes, i.added);
    forall key ensures SameReceipt(n, t', s.receipts, key) {
      assert SameReceipt(n, t, s.receipts, key);
    }
  }

  lemma NoteLinked(n: Names, ls: State, s: Jobs.Sys, step: Step)
    requires Linked(n, ls.tables, s) && ((IsEvidence(step) && !Feeds(ls.tables, step)) || step.SelectStep? || step.DeliverStep?)
    ensures Linked(n, Do(ls, step).tables, s)
  {
    if IsEvidence(step) {
      EvidenceIs(ls, step);
      EvidenceAdds(ls.tables, step);
      EvidenceUnfed(ls.tables, step);
      UnfedStaysLinked(n, ls.tables, EvidenceAfter(ls.tables, step), Touched(step), s);
    } else {
      QuietTables(ls, step);
      SameQueueLinked(n, ls.tables, s, TablesAfter(ls, step), s);
    }
  }

  ghost predicate SameEvidence(t: Tables, t': Tables) {
    t'.links == t.links && t'.outcomes == t.outcomes && t'.receipts == t.receipts
  }

  lemma SelectQuiet(t: Tables, r: SelectRequest, picks: seq<Pick>, evidence: seq<Exhibit>)
    ensures SameEvidence(t, Settle(t, SelectTx(t, r, picks, evidence)))
  {
    if SelectTx(t, r, picks, evidence).Some? {
      var _ := SelectFacts(t, r, picks, evidence);
    }
  }

  lemma DeliverQuiet(t: Tables, key: Ref, run: Run, context: SelectRequest, memories: set<MemoryRef>)
    ensures SameEvidence(t, Settle(t, DeliverTx(t, key, run, context, memories)))
  {
    if DeliverTx(t, key, run, context, memories).Some? {
      var _ := DeliverFacts(t, key, run, context, memories);
    }
  }

  lemma QuietTables(ls: State, step: Step)
    requires step.SelectStep? || step.DeliverStep? || step.SnapshotStep?
    ensures SameEvidence(ls.tables, TablesAfter(ls, step))
  {
    if step.SelectStep? {
      SelectQuiet(ls.tables, step.request, step.picks, step.evidence);
    } else if step.DeliverStep? {
      DeliverQuiet(ls.tables, step.key, step.run, step.context, step.memories);
    }
  }

  lemma ScheduleKeepsTables(s: Jobs.Sys, action: Jobs.Step)
    requires Jobs.Enabled(s, action) && !action.Intake? && !action.Snapshot? && !action.Commit?
    ensures var s' := Jobs.Do(s, action);
            s'.q.episodes == s.q.episodes && s'.q.outcomes == s.q.outcomes && s'.receipts == s.receipts
  {
  }

  lemma LinkedIsRelated(n: Names, t: Tables, s: Jobs.Sys)
    requires Injective(n) && Linked(n, t, s)
    ensures Related(n, t, s)
  {
    forall g | Materialized(t.links.Keys, g) ensures n.episode(g) in s.q.episodes && s.q.episodes[n.episode(g)] == g.run.owner {
      assert EpisodeLinked(n, t.links.Keys, s.q.episodes, g);
    }
  }

  /** Both halves of a window's consolidation stay related. */
  lemma LookUpLinked(n: Names, ls: State, s: Jobs.Sys, act: Act)
    requires Linked(n, ls.tables, s) && act.LookUp? && WorksOn(n, s, act.pid, act.window) && s.processors[act.pid].Leased?
    ensures Linked(n, LifecycleAfter(ls, act).tables, JobsAfter(s, act))
  {
    QuietTables(ls, SnapshotStep(act.pid, act.window, act.offer));
    if act.fit {
      SnapshotKeepsQueue(s, act.pid);
    } else {
      ScheduleKeepsTables(s, Jobs.Fail(act.pid));
    }
    SameQueueLinked(n, ls.tables, s, LifecycleAfter(ls, act).tables, JobsAfter(s, act));
  }

  lemma SnapshotKeepsQueue(s: Jobs.Sys, pid: nat)
    requires Jobs.Enabled(s, Jobs.Snapshot(pid))
    ensures Jobs.Do(s, Jobs.Snapshot(pid)).q == s.q && Jobs.Do(s, Jobs.Snapshot(pid)).receipts == s.receipts
  {
  }

  lemma ConcludeLinked(n: Names, ls: State, s: Jobs.Sys, act: Act)
    requires JointInv(n, ls, s) && Can(n, ls, s, act) && act.Conclude?
    ensures Linked(n, LifecycleAfter(ls, act).tables, JobsAfter(s, act))
  {
    var w, snap := ls.snapshots[act.pid].0, ls.snapshots[act.pid].1;
    WorkedWindowFits(n, ls, s, act.pid, w);
    LinkedIsRelated(n, ls.tables, s);
    ConcludeTables(n, ls.tables, s, act.pid, w, act.offer, snap, act.changes);
    ConcludeIs(n, ls, s, act);
  }

  lemma ConcludeIs(n: Names, ls: State, s: Jobs.Sys, act: Act)
    requires Can(n, ls, s, act) && act.Conclude?
    ensures var r := CommitAnswer(ls, act);
            && LifecycleAfter(ls, act).tables == CommitResult(ls.tables, r)
            && Jobs.Enabled(s, if Answered(r) then Jobs.Commit(act.pid) else Jobs.Fail(act.pid))
            && JobsAfter(s, act) == Jobs.Do(s, if Answered(r) then Jobs.Commit(act.pid) else Jobs.Fail(act.pid))
  {
    var _ := CommitStepResult(ls, CommitStep(act.pid, act.offer, act.changes));
  }

  lemma ConcludeTables(n: Names, t: Tables, s: Jobs.Sys, pid: nat, w: Window, offer: Offer, snap: Snapshot, changes: seq<Change>)
    requires Inv(t) && Linked(n, t, s) && Related(n, t, s) && WindowOk(t, w) && WorksOn(n, s, pid, w) && s.processors[pid].Prepared?
    ensures var r := CommitTx(t, w, offer, snap, changes);
            Linked(n, CommitResult(t, r), Jobs.Do(s, if Answered(r) then Jobs.Commit(pid) else Jobs.Fail(pid)))
  {
    CommitStepIs(n, t, s, pid, w);
    CommitAnswers(t, w, offer, snap, changes);
    CommitNeverAborts(t, w, offer, snap, changes);
    var r := CommitTx(t, w, offer, snap, changes);
    if r.Done? {
      ReceiptAdded(n, t, r.tables, s.receipts, w);
      CommitKeepsOutcomes(t, w, offer, snap, changes);
      ReceiptLinked(n, t, r.tables, s, Jobs.Do(s, Jobs.Commit(pid)));
    } else if r.Replayed? || r.WindowConflict? {
      SameQueueLinked(n, t, s, t, Jobs.Do(s, Jobs.Commit(pid)));
    } else {
      ScheduleKeepsTables(s, Jobs.Fail(pid));
      SameQueueLinked(n, t, s, t, Jobs.Do(s, Jobs.Fail(pid)));
    }
  }

  lemma CommitKeepsOutcomes(t: Tables, w: Window, offer: Offer, snap: Snapshot, changes: seq<Change>)
    requires Inv(t) && CommitTx(t, w, offer, snap, changes).Done?
    ensures CommitTx(t, w, offer, snap, changes).tables.outcomes == t.outcomes
  {
    CommitNeverAborts(t, w, offer, snap, changes);
    var a, touched := CommitApplies(t, w, offer, snap, changes);
  }

  lemma ReceiptLinked(n: Names, t: Tables, t': Tables, s: Jobs.Sys, s': Jobs.Sys)
    requires Linked(n, t, s) && t'.links == t.links && t'.outcomes == t.outcomes && s'.q == s.q && SameReceipts(n, t', s'.receipts)
    ensures Linked(n, t', s')
  {
    forall o ensures OutcomeLinked(n, t', s'.q.outcomes, o) {
      assert OutcomeLinked(n, t, s.q.outcomes, o);
    }
  }

  lemma ActLinked(n: Names, ls: State, s: Jobs.Sys, act: Act)
    requires JointInv(n, ls, s) && Can(n, ls, s, act)
    ensures Linked(n, LifecycleAfter(ls, act).tables, JobsAfter(s, act))
  {
    if act.LookUp? {
      LookUpLinked(n, ls, s, act);
    } else if act.Conclude? {
      ConcludeLinked(n, ls, s, act);
    } else {
      OutsideLinked(n, ls, s, act);
    }
  }

  /** Acts outside the engine. */
  lemma OutsideLinked(n: Names, ls: State, s: Jobs.Sys, act: Act)
    requires Named(n) && Linked(n, ls.tables, s) && Can(n, ls, s, act) && !act.LookUp? && !act.Conclude?
    ensures Linked(n, LifecycleAfter(ls, act).tables, JobsAfter(s, act))
  {
    match act
    case Report(step, i) =>
      EvidenceIs(ls, step);
      ReportLinked(n, ls.tables, s, step, i);
    case Note(step) => NoteLinked(n, ls, s, step);
    case Schedule(action) =>
      ScheduleKeepsTables(s, action);
      SameQueueLinked(n, ls.tables, s, ls.tables, Jobs.Do(s, action));
  }

  lemma LifecycleKept(ls: State, act: Act)
    requires Inv(ls.tables)
    ensures Kept(ls.tables, LifecycleAfter(ls, act).tables)
  {
    if LifecycleStep(act).Some? {
      StepPreserves(ls, LifecycleStep(act).value);
    } else {
      KeptSelf(ls.tables);
    }
  }

  lemma JobsKept(s: Jobs.Sys, act: Act)
    requires JobSafety.Inv(s)
    ensures JobSafety.Kept(s, JobsAfter(s, act))
  {
    if JobsStep(act).Some? && Jobs.Enabled(s, JobsStep(act).value) {
      JobSafety.StepPreserves(s, JobsStep(act).value);
    } else {
      JobSafety.SameJobs(s.q.jobs);
    }
  }

  /** An act that can happen takes its queue step. */
  lemma JobsStepIsEnabled(n: Names, ls: State, s: Jobs.Sys, act: Act)
    requires Can(n, ls, s, act)
    ensures JobsStep(act).Some? ==> Jobs.Enabled(s, JobsStep(act).value)
  {
  }

  lemma ActPreserves(n: Names, ls: State, s: Jobs.Sys, act: Act)
    requires JointInv(n, ls, s) && Can(n, ls, s, act)
    ensures JointInv(n, LifecycleAfter(ls, act), JobsAfter(s, act))
    ensures Kept(ls.tables, LifecycleAfter(ls, act).tables)
    ensures JobSafety.Grows(s.q.jobs, JobsAfter(s, act).q.jobs)
  {
    ActLinked(n, ls, s, act);
    LifecycleKept(ls, act);
    JobsKept(s, act);
  }

  lemma {:induction false} JointPreserves(n: Names, ls: State, s: Jobs.Sys, acts: seq<Act>, ls': State, s': Jobs.Sys)
    requires JointInv(n, ls, s) && JointRuns(n, ls, s, acts, ls', s')
    ensures JointInv(n, ls', s')
    decreases |acts|
  {
    if acts != [] {
      ActPreserves(n, ls, s, acts[0]);
      JointPreserves(n, LifecycleAfter(ls, acts[0]), JobsAfter(s, acts[0]), acts[1..], ls', s');
    }
  }

  lemma JointStart(n: Names)
    requires Named(n)
    ensures JointInv(n, State(Empty(), map[]), Jobs.Init())
  {
    EmptyOk();
    JobSafety.InitOk();
    forall g ensures EpisodeLinked(n, {}, map[], g) {
      if Materialized({}, g) {
        var _ := MaterializedHasAct({}, g);
      }
    }
  }

  lemma JointReachableInv(n: Names, ls: State, s: Jobs.Sys)
    requires Named(n) && JointReachable(n, ls, s)
    ensures JointInv(n, ls, s)
  {
    JointStart(n);
    var acts :| JointRuns(n, State(Empty(), map[]), Jobs.Init(), acts, ls, s);
    JointPreserves(n, State(Empty(), map[]), Jobs.Init(), acts, ls, s);
  }

  /* ---- what holds of the whole system ---- */

  /** Whatever a processor works on is a well-formed window: the engine never answers
      that it is invalid, and its state fails to load if and only if some Seed it
      shows has an anchor of another owner. */
  lemma ScheduledWindowsLoad(n: Names, ls: State, s: Jobs.Sys, pid: nat) returns (w: Window)
    requires Named(n) && JointReachable(n, ls, s) && pid in s.processors
    ensures WorksOn(n, s, pid, w) && Fit(ls.tables, w) && FirstLook(ls.tables, w) != Some(InvalidWindow)
    ensures forall offer :: OfferOk(ls.tables, w, offer) ==>
              (TakeSnapshot(ls.tables, w, offer).None? <==>
               exists v :: v in TargetVersions(ls.tables, w, offer.hints) && !OwnAnchors(ls.tables, v))
  {
    JointReachableInv(n, ls, s);
    w := WorkedWindow(n, ls, s, pid);
    WorkedWindowFits(n, ls, s, pid, w);
    FitLoads(ls.tables, w);
  }

  lemma FitLoads(t: Tables, w: Window)
    requires (forall b | b in t.basis :: BasisOk(t, b)) && Fit(t, w)
    ensures FirstLook(t, w) != Some(InvalidWindow)
    ensures forall offer :: OfferOk(t, w, offer) ==>
              (TakeSnapshot(t, w, offer).None? <==> exists v :: v in TargetVersions(t, w, offer.hints) && !OwnAnchors(t, v))
  {
    forall offer | OfferOk(t, w, offer)
      ensures TakeSnapshot(t, w, offer).None? <==> exists v :: v in TargetVersions(t, w, offer.hints) && !OwnAnchors(t, v)
    {
      LoadsIff(t, w, offer);
    }
  }

  lemma WorkedWindow(n: Names, ls: State, s: Jobs.Sys, pid: nat) returns (w: Window)
    requires JointInv(n, ls, s) && pid in s.processors
    ensures WorksOn(n, s, pid, w)
  {
    var i := WorkedJob(s, pid);
    w := JobWindowExists(n, ls.tables, s.q, s.q.jobs[i]);
  }

  /** The Episode lies in a window whose consolidation left a receipt. */
  ghost predicate Consolidated(t: Tables, g: Group) {
    exists key :: key in t.receipts && g in t.receipts[key].episodes
  }

  /** The Outcome lies beside its Episode in such a window. */
  ghost predicate OutcomeConsolidated(t: Tables, o: OutcomeKey) {
    exists key :: key in t.receipts && o in t.receipts[key].outcomes && o.group in t.receipts[key].episodes
  }

  lemma DoneJobReceipt(n: Names, ls: State, s: Jobs.Sys, i: nat) returns (key: ReceiptKey)
    requires JointInv(n, ls, s) && i < |s.q.jobs| && JobSafety.Done(s.receipts, s.q.jobs[i])
    ensures key in ls.tables.receipts && ls.tables.receipts[key].episodes != []
    ensures EvidenceOf(n, ls.tables.receipts[key]) == s.q.jobs[i].evidence
  {
    key := ReceiptKey(s.q.jobs[i].owner.tenant, s.q.jobs[i].ref);
    assert SameReceipt(n, ls.tables, s.receipts, key);
  }

  lemma InEvidence(n: Names, w: Window, e: JobWindows.Evidence)
    requires Injective(n) && EvidenceOf(n, w) == e
    ensures forall g :: n.episode(g) in e.episodes ==> g in w.episodes
    ensures forall o :: n.outcome(o) in e.outcomes ==> o in w.outcomes
  {
    forall g | n.episode(g) in e.episodes ensures g in w.episodes {
      var i :| 0 <= i < |e.episodes| && e.episodes[i] == n.episode(g);
      assert e.episodes[i] == n.episode(w.episodes[i]);
    }
    forall o | n.outcome(o) in e.outcomes ensures o in w.outcomes {
      var i :| 0 <= i < |e.outcomes| && e.outcomes[i] == n.outcome(o);
      assert e.outcomes[i] == n.outcome(w.outcomes[i]);
    }
  }

  /** With no open Job every Job of the owner has its receipt. */
  lemma DrainedReceipt(n: Names, ls: State, s: Jobs.Sys, owner: Owner, i: nat) returns (w: Window)
    requires JointInv(n, ls, s) && JobTheorems.DrainedFor(s.q.jobs, owner) && i < |s.q.jobs| && s.q.jobs[i].owner == owner
    ensures EvidenceOf(n, w) == s.q.jobs[i].evidence && JobSafety.JobOk(s.q.episodes, s.q.outcomes, s.q.jobs[i])
    ensures exists key :: key in ls.tables.receipts && ls.tables.receipts[key] == w
  {
    var key := DoneJobReceipt(n, ls, s, i);
    w := ls.tables.receipts[key];
  }

  lemma HeldEpisode(q: Jobs.Queue, e: Ref) returns (i: nat)
    requires JobSafety.Conserved(q) && e in q.episodes
    ensures JobSafety.HoldsEpisode(q.jobs, i, q.episodes[e], e)
  {
    i :| JobSafety.HoldsEpisode(q.jobs, i, q.episodes[e], e);
  }

  lemma HeldOutcome(q: Jobs.Queue, x: Ref) returns (i: nat)
    requires JobSafety.Conserved(q) && x in q.outcomes
    ensures JobSafety.HoldsOutcome(q.jobs, i, q.outcomes[x].owner, x)
  {
    i :| JobSafety.HoldsOutcome(q.jobs, i, q.outcomes[x].owner, x);
  }

  lemma EpisodeConsolidated(n: Names, ls: State, s: Jobs.Sys, g: Group)
    requires JointInv(n, ls, s) && Materialized(ls.tables.links.Keys, g) && JobTheorems.DrainedFor(s.q.jobs, g.run.owner)
    ensures Consolidated(ls.tables, g)
  {
    assert EpisodeLinked(n, ls.tables.links.Keys, s.q.episodes, g);
    var i := HeldEpisode(s.q, n.episode(g));
    var w := DrainedReceipt(n, ls, s, g.run.owner, i);
    InEvidence(n, w, s.q.jobs[i].evidence);
  }

  lemma OutcomeIsConsolidated(n: Names, ls: State, s: Jobs.Sys, o: OutcomeKey)
    requires JointInv(n, ls, s) && o in ls.tables.outcomes && Materialized(ls.tables.links.Keys, o.group)
    requires JobTheorems.DrainedFor(s.q.jobs, o.group.run.owner)
    ensures OutcomeConsolidated(ls.tables, o)
  {
    assert OutcomeLinked(n, ls.tables, s.q.outcomes, o);
    var i := HeldOutcome(s.q, n.outcome(o));
    var w := DrainedReceipt(n, ls, s, o.group.run.owner, i);
    BesideItsEpisode(n, s.q, s.q.jobs[i], o);
    InEvidence(n, w, s.q.jobs[i].evidence);
  }

  lemma BesideItsEpisode(n: Names, q: Jobs.Queue, j: Jobs.Job, o: OutcomeKey)
    requires JobSafety.JobOk(q.episodes, q.outcomes, j) && n.outcome(o) in j.evidence.outcomes
    requires n.outcome(o) in q.outcomes && q.outcomes[n.outcome(o)] == JobWindows.OutcomeRow(o.group.run.owner, n.episode(o.group))
    ensures n.episode(o.group) in j.evidence.episodes
  {
    var k :| 0 <= k < |j.evidence.outcomes| && j.evidence.outcomes[k] == n.outcome(o);
  }

  /** Once an owner has no open Job, each of its materialized Episodes, and each of
      their Outcomes beside its Episode, lies in a window with a receipt. */
  lemma DrainedMeansRemembered(n: Names, ls: State, s: Jobs.Sys, owner: Owner)
    requires Named(n) && JointReachable(n, ls, s) && JobTheorems.DrainedFor(s.q.jobs, owner)
    ensures forall g | Materialized(ls.tables.links.Keys, g) && g.run.owner == owner :: Consolidated(ls.tables, g)
    ensures forall o | o in ls.tables.outcomes && o.group.run.owner == owner && Materialized(ls.tables.links.Keys, o.group) ::
              OutcomeConsolidated(ls.tables, o)
  {
    JointReachableInv(n, ls, s);
    forall g | Materialized(ls.tables.links.Keys, g) && g.run.owner == owner ensures Consolidated(ls.tables, g) {
      EpisodeConsolidated(n, ls, s, g);
    }
    forall o | o in ls.tables.outcomes && o.group.run.owner == owner && Materialized(ls.tables.links.Keys, o.group)
      ensures OutcomeConsolidated(ls.tables, o)
    {
      OutcomeIsConsolidated(n, ls, s, o);
    }
  }

  /* ---- a stalled owner ---- */

  /** A frozen Job whose window must show a Seed with a foreign anchor, and which has
      no receipt. */
  ghost predicate Stalled(n: Names, t: Tables, s: Jobs.Sys, i: nat, w: Window, v: Version) {
    && JobSafety.FrozenAt(s.q.jobs, i, w.job, EvidenceOf(n, w)) && w.episodes != [] && s.q.jobs[i].owner == OwnerOf(w)
    && Blocking(t, v) && MustShow(t, w, v) && KeyOf(w) !in t.receipts
  }

  lemma StallStep(n: Names, ls: State, s: Jobs.Sys, act: Act, i: nat, w: Window, v: Version)
    requires JointInv(n, ls, s) && Can(n, ls, s, act) && Stalled(n, ls.tables, s, i, w, v)
    ensures JointInv(n, LifecycleAfter(ls, act), JobsAfter(s, act))
    ensures Stalled(n, LifecycleAfter(ls, act).tables, JobsAfter(s, act), i, w, v)
  {
    var t, t', s' := ls.tables, LifecycleAfter(ls, act).tables, JobsAfter(s, act);
    ActPreserves(n, ls, s, act);
    StallRow(s.q.jobs, s'.q.jobs, i);
    MustShowGrows(t, t', w, v);
    BlockingKept(ls, act, v);
    NoReceipt(n, ls, s, act, i, w, v);
  }

  lemma StallRow(jobs: seq<Jobs.Job>, jobs': seq<Jobs.Job>, i: nat)
    requires JobSafety.Grows(jobs, jobs') && i < |jobs| && jobs[i].frozen
    ensures i < |jobs'| && jobs'[i].frozen && jobs'[i].ref == jobs[i].ref && jobs'[i].owner == jobs[i].owner && jobs'[i].evidence == jobs[i].evidence
  {
    assert JobSafety.Continues(jobs[i], jobs'[i]);
  }

  lemma BlockingKept(ls: State, act: Act, v: Version)
    requires Inv(ls.tables) && Blocking(ls.tables, v)
    ensures Blocking(LifecycleAfter(ls, act).tables, v)
  {
    if LifecycleStep(act).Some? {
      StepLeavesBlocking(ls, LifecycleStep(act).value, v);
    }
  }

  /** Only a commit of that very window could leave the receipt, and it does not load. */
  lemma NoReceipt(n: Names, ls: State, s: Jobs.Sys, act: Act, i: nat, w: Window, v: Version)
    requires JointInv(n, ls, s) && Can(n, ls, s, act) && Stalled(n, ls.tables, s, i, w, v)
    ensures KeyOf(w) !in LifecycleAfter(ls, act).tables.receipts
  {
    if act.Conclude? {
      ConcludeReceipts(n, ls, act);
      NoReceiptFrom(n, ls, s, act.pid, act.offer, act.changes, i, w, v);
    } else {
      NoCommit(n, ls, s, act);
      OthersAddNoReceipt(ls, act);
    }
  }

  lemma NoCommit(n: Names, ls: State, s: Jobs.Sys, act: Act)
    requires Can(n, ls, s, act) && !act.Conclude?
    ensures LifecycleStep(act).Some? ==> !LifecycleStep(act).value.CommitStep?
  {
  }

  lemma ConcludeReceipts(n: Names, ls: State, act: Act)
    requires act.Conclude? && act.pid in ls.snapshots
    ensures LifecycleAfter(ls, act).tables.receipts == CommitResult(ls.tables, CommitAnswer(ls, act)).receipts
  {
    var _ := CommitStepResult(ls, CommitStep(act.pid, act.offer, act.changes));
  }

  lemma OthersAddNoReceipt(ls: State, act: Act)
    requires !act.Conclude? && (LifecycleStep(act).Some? ==> !LifecycleStep(act).value.CommitStep?)
    ensures LifecycleAfter(ls, act).tables.receipts == ls.tables.receipts
  {
    if LifecycleStep(act).Some? {
      IntakeKeepsMemory(ls, LifecycleStep(act).value);
    }
  }

  lemma NoReceiptFrom(n: Names, ls: State, s: Jobs.Sys, pid: nat, offer: Offer, changes: seq<Change>, i: nat, w: Window, v: Version)
    requires JointInv(n, ls, s) && pid in ls.snapshots && WorksOn(n, s, pid, ls.snapshots[pid].0)
    requires Stalled(n, ls.tables, s, i, w, v)
    ensures KeyOf(w) !in CommitResult(ls.tables, CommitTx(ls.tables, ls.snapshots[pid].0, offer, ls.snapshots[pid].1, changes)).receipts
  {
    var x, snap := ls.snapshots[pid].0, ls.snapshots[pid].1;
    CommitNeverAborts(ls.tables, x, offer, snap, changes);
    if Proceeds(ls.tables, x, offer, snap) {
      CommitAddsReceipt(ls.tables, x, offer, snap, changes);
      if KeyOf(x) == KeyOf(w) {
        OneJobOneWindow(n, s, pid, x, i, w);
        ShownBlocks(ls.tables, w, offer, v);
      }
    }
  }

  lemma OneJobOneWindow(n: Names, s: Jobs.Sys, pid: nat, x: Window, i: nat, w: Window)
    requires JobSafety.Inv(s) && Injective(n) && WorksOn(n, s, pid, x) && x.episodes != [] && w.episodes != [] && x.job == w.job
    requires JobSafety.FrozenAt(s.q.jobs, i, w.job, EvidenceOf(n, w))
    ensures x == w
  {
    var k := WorkedJob(s, pid);
    assert k == i;
    EvidenceInjective(n, x, w);
  }

  lemma {:induction false} StallRun(n: Names, ls: State, s: Jobs.Sys, acts: seq<Act>, ls': State, s': Jobs.Sys, i: nat, w: Window, v: Version)
    requires JointInv(n, ls, s) && JointRuns(n, ls, s, acts, ls', s') && Stalled(n, ls.tables, s, i, w, v)
    ensures JointInv(n, ls', s') && Stalled(n, ls'.tables, s', i, w, v)
    decreases |acts|
  {
    if acts != [] {
      StallStep(n, ls, s, acts[0], i, w, v);
      StallRun(n, LifecycleAfter(ls, acts[0]), JobsAfter(s, acts[0]), acts[1..], ls', s', i, w, v);
    }
  }

  /** Such a Job never completes, and no later Job of its owner is ever frozen,
      leased or completed: over every further run of the whole system the owner's
      queue stands still and nothing more of its evidence is consolidated. */
  lemma ForeignAnchorStallsOwner(n: Names, ls: State, s: Jobs.Sys, acts: seq<Act>, ls': State, s': Jobs.Sys, i: nat, w: Window, v: Version)
    requires Named(n) && JointReachable(n, ls, s) && Stalled(n, ls.tables, s, i, w, v) && JointRuns(n, ls, s, acts, ls', s')
    ensures Stalled(n, ls'.tables, s', i, w, v) && Jobs.Open(s'.q.jobs[i])
    ensures forall j :: i < j < |s'.q.jobs| && s'.q.jobs[j].owner == OwnerOf(w) ==>
              Jobs.Open(s'.q.jobs[j]) && !s'.q.jobs[j].frozen && s'.q.jobs[j].token == ""
  {
    JointReachableInv(n, ls, s);
    StallRun(n, ls, s, acts, ls', s', i, w, v);
    StillOpen(n, ls', s', i, w, v);
  }

  lemma StillOpen(n: Names, ls: State, s: Jobs.Sys, i: nat, w: Window, v: Version)
    requires JointInv(n, ls, s) && Stalled(n, ls.tables, s, i, w, v)
    ensures Jobs.Open(s.q.jobs[i])
    ensures forall j :: i < j < |s.q.jobs| && s.q.jobs[j].owner == OwnerOf(w) ==>
              Jobs.Open(s.q.jobs[j]) && !s.q.jobs[j].frozen && s.q.jobs[j].token == ""
  {
    assert SameReceipt(n, ls.tables, s.receipts, KeyOf(w));
    assert !JobSafety.Done(s.receipts, s.q.jobs[i]);
    BehindStaysCollecting(s.q, i);
  }

  lemma BehindStaysCollecting(q: Jobs.Queue, i: nat)
    requires JobSafety.QueueOk(q) && i < |q.jobs| && Jobs.Open(q.jobs[i])
    ensures forall j :: i < j < |q.jobs| && q.jobs[j].owner == q.jobs[i].owner ==>
              Jobs.Open(q.jobs[j]) && !q.jobs[j].frozen && q.jobs[j].token == ""
  {
    forall j | i < j < |q.jobs| && q.jobs[j].owner == q.jobs[i].owner ensures q.jobs[j].token == "" {
      assert JobSafety.JobOk(q.episodes, q.outcomes, q.jobs[j]);
    }
  }
}
