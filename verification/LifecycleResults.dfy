/** The lifecycle's main results. */
module LifecycleResults {
  import opened Refs
  import opened Causal
  import opened LifecycleModel
  import opened LifecycleSafety
  import opened LifecycleIntake
  import opened LifecycleCommit
  import opened LifecycleChanges
  import opened LifecycleBatch
  import opened LifecycleTheorems

  /* ---- causality ---- */

  /** The order of one feedback chain: the version existed, was frozen in the run's
      context for a Situation of this Episode, was delivered, and only then did the
      Agent act in that run. */
  ghost predicate Ordered(t: Tables, v: Version, g: Group, d: DeliveryKey) {
    && v in t.versions && Chain(t, v, g, d)
    && t.versions[v].at < t.contexts[g.run].at < t.deliveries[d].at
    && forall l | l in t.links && l.group.run == g.run && l.role == AgentAct :: t.deliveries[d].at < t.links[l]
  }

  lemma ChainIsOrdered(t: Tables, v: Version, g: Group, d: DeliveryKey)
    requires IntakeOk(t) && Chain(t, v, g, d)
    ensures Ordered(t, v, g, d)
  {
    assert ContextOk(t, g.run) && DeliveryOk(t, d);
    var i :| 0 <= i < |t.contexts[g.run].items| && t.contexts[g.run].items[i].version == v;
  }

  /** No Seed version is ever fed back by the experience that formed or revised
      it: the runs behind its formation or revision are disjoint from the runs
      behind its reenactments and inhibitions. */
  lemma NoSelfFeedback(s: State, origin: Basis, feedback: Basis)
    requires Reachable(s) && origin in s.tables.basis && feedback in s.tables.basis && origin.version == feedback.version
    requires origin.role in {Formation, Revision} && feedback.role in {Reenactment, Inhibition}
    ensures origin.episode.run != feedback.episode.run && origin.episode != feedback.episode
  {
    ReachableInv(s);
    var t := s.tables;
    OriginBeforeFeedback(t, origin.version, origin.episode, feedback.episode, origin, feedback);
  }

  lemma OriginBeforeFeedback(t: Tables, v: Version, e: Group, f: Group, origin: Basis, feedback: Basis)
    requires IntakeOk(t) && BasisOk(t, origin) && BasisOk(t, feedback) && origin.version == feedback.version == v
    requires origin.episode == e && feedback.episode == f
    requires origin.role in {Formation, Revision} && feedback.role in {Reenactment, Inhibition}
    ensures e.run != f.run
  {
    OriginActed(t, origin);
    FeedbackFed(t, feedback);
    ActedBeforeFed(t, v, e, f);
  }

  lemma OriginActed(t: Tables, origin: Basis)
    requires BasisOk(t, origin) && origin.role in {Formation, Revision}
    ensures origin.version in t.versions && ActedBefore(t, origin.episode, t.versions[origin.version].at)
  {
  }

  lemma FeedbackFed(t: Tables, feedback: Basis)
    requires BasisOk(t, feedback) && feedback.role in {Reenactment, Inhibition}
    ensures Fed(t, feedback.version, feedback.episode)
  {
  }

  lemma ActedBeforeFed(t: Tables, v: Version, e: Group, f: Group)
    requires IntakeOk(t) && v in t.versions && ActedBefore(t, e, t.versions[v].at) && Fed(t, v, f)
    ensures e.run != f.run
  {
    var d :| d in t.deliveries && Chain(t, v, f, d);
    ChainIsOrdered(t, v, f, d);
    var l :| l in t.links && l.group == e && l.role == AgentAct && t.links[l] < t.versions[v].at;
  }

  /** Every Outcome behind an inhibition or a behavioral revision closes a complete
      chain: the exact version was delivered before any AgentAct of the run, and the
      non-Agent Outcome came later, attributed to that delivery. */
  lemma FeedbackRestsOnCompleteChain(s: State, b: OutcomeBasis)
    requires Reachable(s) && b in s.tables.outcomeBasis && b.role in {Inhibition, Revision}
    ensures b.outcome in s.tables.outcomes && NonAgentOutcome(s.tables, b.outcome)
    ensures b.role == Revision ==> b.version.number >= 2
    ensures Closed(s.tables, FedVersion(b), b.outcome)
  {
    ReachableInv(s);
    BasisIsClosed(s.tables, b);
  }

  lemma BasisIsClosed(t: Tables, b: OutcomeBasis)
    requires IntakeOk(t) && OutcomeBasisOk(t, b) && b.role in {Inhibition, Revision}
    ensures b.outcome in t.outcomes && NonAgentOutcome(t, b.outcome) && (b.role == Revision ==> b.version.number >= 2)
    ensures Closed(t, FedVersion(b), b.outcome)
  {
    AttributedIsClosed(t, FedVersion(b), b.outcome);
  }

  /** The version the Outcome is about: the inhibited one, or the one revised. */
  function FedVersion(b: OutcomeBasis): Version {
    if b.role == Revision && b.version.number > 0 then Prior(b.version) else b.version
  }

  /** The Outcome followed an ordered delivery of the version to its run. */
  ghost predicate Closed(t: Tables, v: Version, o: OutcomeKey) {
    o in t.outcomes && exists d :: d in t.outcomes[o].deliveries && Ordered(t, v, o.group, d) && t.deliveries[d].at < t.outcomes[o].at
  }

  lemma AttributedIsClosed(t: Tables, v: Version, o: OutcomeKey)
    requires IntakeOk(t) && Attributed(t, v, o)
    ensures Closed(t, v, o)
  {
    var d :| d in t.outcomes[o].deliveries && Chain(t, v, o.group, d);
    ChainIsOrdered(t, v, o.group, d);
    assert OutcomeOk(t, o);
  }

  /** Cited feedback Episodes and Outcomes match exactly: an inhibiting Episode has
      an inhibiting Outcome and conversely; a revised Seed cites the Episode of each
      of its Outcomes, and every Episode it cites has a reason. */
  lemma FeedbackMatchesExactly(s: State, v: Version)
    requires Reachable(s) && v in s.tables.versions && v.root.Seed?
    ensures BasisIn(s.tables, v, {Inhibition}) == set o | o in OutcomesIn(s.tables, v, Inhibition) :: o.group
    ensures forall o | o in OutcomesIn(s.tables, v, Revision) :: o.group in BasisIn(s.tables, v, {Revision})
    ensures forall g | g in BasisIn(s.tables, v, {Revision}) :: RevisionReason(s.tables, v, g)
  {
    ReachableInv(s);
    InhibitionMatches(s.tables, v);
    RevisionMatches(s.tables, v);
  }

  lemma InhibitionMatches(t: Tables, v: Version)
    requires forall b | b in t.basis :: BasisOk(t, b)
    requires forall b | b in t.outcomeBasis :: OutcomeBasisOk(t, b)
    ensures BasisIn(t, v, {Inhibition}) == set o | o in OutcomesIn(t, v, Inhibition) :: o.group
  {
    forall g | g in BasisIn(t, v, {Inhibition}) ensures exists o :: o in OutcomesIn(t, v, Inhibition) && o.group == g {
      assert BasisOk(t, Basis(v, g, Inhibition));
      var o :| OutcomeBasis(v, o, Inhibition) in t.outcomeBasis && o.group == g;
      assert o in OutcomesIn(t, v, Inhibition);
    }
    forall o | o in OutcomesIn(t, v, Inhibition) ensures o.group in BasisIn(t, v, {Inhibition}) {
      assert OutcomeBasisOk(t, OutcomeBasis(v, o, Inhibition));
      assert Basis(v, o.group, Inhibition) in t.basis;
    }
  }

  lemma RevisionMatches(t: Tables, v: Version)
    requires v.root.Seed?
    requires forall b | b in t.basis :: BasisOk(t, b)
    requires forall b | b in t.outcomeBasis :: OutcomeBasisOk(t, b)
    ensures forall o | o in OutcomesIn(t, v, Revision) :: o.group in BasisIn(t, v, {Revision})
    ensures forall g | g in BasisIn(t, v, {Revision}) :: RevisionReason(t, v, g)
  {
    forall o | o in OutcomesIn(t, v, Revision) ensures o.group in BasisIn(t, v, {Revision}) {
      assert OutcomeBasisOk(t, OutcomeBasis(v, o, Revision));
      assert Basis(v, o.group, Revision) in t.basis;
    }
    forall g | g in BasisIn(t, v, {Revision}) ensures RevisionReason(t, v, g) {
      assert BasisOk(t, Basis(v, g, Revision));
    }
  }

  /** An Episode feeds a version at most once, and a version's reenactments come
      from pairwise distinct runs. */
  lemma EpisodesFeedOnce(s: State, b: Basis, c: Basis)
    requires Reachable(s) && b in s.tables.basis && c in s.tables.basis && b.version == c.version && b != c
    requires b.role in {Reenactment, Inhibition} && c.role in {Reenactment, Inhibition}
    ensures b.episode != c.episode
    ensures b.role == Reenactment && c.role == Reenactment ==> b.episode.run != c.episode.run
  {
    ReachableInv(s);
  }

  /* ---- the version store ---- */

  /** Versions 1..n of a root exist and exactly the n-th is active. */
  ghost predicate RunsTo(t: Tables, root: Root, n: nat) {
    && n >= 1
    && (forall k: nat :: Version(root, k) in t.versions <==> 1 <= k <= n)
    && (forall k: nat :: 1 <= k <= n ==> (t.versions[Version(root, k)].active <==> k == n))
  }

  lemma {:induction false} PriorsExist(versions: map<Version, VersionRow>, v: Version, k: nat)
    requires StoreOk(versions) && v in versions && 1 <= k <= v.number
    ensures Version(v.root, k) in versions && (k < v.number ==> !versions[Version(v.root, k)].active)
    decreases v.number - k
  {
    if k < v.number {
      PriorsExist(versions, v, k + 1);
      assert Stored(versions, Version(v.root, k + 1));
      assert Prior(Version(v.root, k + 1)) == Version(v.root, k);
      assert Stored(versions, Version(v.root, k));
      assert Next(Version(v.root, k)) == Version(v.root, k + 1);
    }
  }

  /** Climbing from any version reaches the active one. */
  lemma {:induction false} ActiveExists(versions: map<Version, VersionRow>, v: Version, left: set<Version>) returns (top: Version)
    requires StoreOk(versions) && v in versions && left <= versions.Keys
    requires forall u | u in versions && u.root == v.root && u.number > v.number :: u in left
    ensures top in versions && top.root == v.root && top.number >= v.number && versions[top].active
    decreases left
  {
    assert Stored(versions, v);
    if versions[v].active {
      top := v;
    } else {
      top := ActiveExists(versions, Next(v), left - {Next(v)});
    }
  }

  /** Each Seed and Recollection has exactly one active version, the one with the
      highest number; numbers run from one without gaps. */
  lemma OneActiveVersion(s: State, v: Version) returns (n: nat)
    requires Reachable(s) && v in s.tables.versions
    ensures RunsTo(s.tables, v.root, n)
  {
    ReachableInv(s);
    var versions := s.tables.versions;
    var top := ActiveExists(versions, v, versions.Keys);
    n := top.number;
    assert Stored(versions, top);
    forall k: nat | 1 <= k <= n ensures Version(v.root, k) in versions && (k < n ==> !versions[Version(v.root, k)].active) {
      PriorsExist(versions, top, k);
    }
    forall k: nat | Version(v.root, k) in versions ensures 1 <= k <= n {
      var u := Version(v.root, k);
      assert Stored(versions, u);
      if k > n {
        PriorsExist(versions, u, n);
      }
    }
    assert Version(v.root, n) == top;
  }

  /** No two active memories of one owner, and application, share a text. */
  lemma ActiveTextsDiffer(s: State, v: Version, w: Version)
    requires Reachable(s) && v in s.tables.versions && w in s.tables.versions && v != w
    requires s.tables.versions[v].active && s.tables.versions[w].active && v.root.owner == w.root.owner && v.root.Seed? == w.root.Seed?
    requires v.root.Recollection? ==> s.tables.versions[v].application == s.tables.versions[w].application
    ensures s.tables.versions[v].text != s.tables.versions[w].text
  {
    ReachableInv(s);
  }

  /* ---- frozen receipts and contexts ---- */

  /** Replaying a committed window in any later state returns exactly the receipt
      first returned, both at the first look-up, for which the window's Episodes are
      loaded, and inside the commit; another window under the same Job conflicts. */
  lemma ReplayReturnsFirstReceipt(s: State, steps: seq<Step>, s': State, w: Window, offer: Offer, snap: Snapshot, changes: seq<Change>)
    requires Reachable(s) && Runs(s, steps, s') && w.episodes != [] && KeyOf(w) in s.tables.receipts
    ensures KeyOf(w) in s.tables.returned
    ensures CommitTx(s'.tables, w, offer, snap, changes) ==
            if s.tables.receipts[KeyOf(w)] == w then Replayed(s.tables.returned[KeyOf(w)]) else WindowConflict
    ensures FirstLook(s'.tables, w) ==
            Some(if s.tables.receipts[KeyOf(w)] == w then Replayed(s.tables.returned[KeyOf(w)])
                 else if WindowOk(s'.tables, w) then WindowConflict else InvalidWindow)
  {
    ReachableInv(s);
    RunPreserves(s, steps, s');
    ReachableWindowsLoad(s);
    var t, t', key := s.tables, s'.tables, KeyOf(w);
    if t.receipts[key] == w {
      assert LoadsAs(t, w, key);
      WindowOkGrows(t, t', w);
    }
    ReplaysAs(t', w, t.receipts[key], t.returned[key], offer, snap, changes);
  }

  lemma ReplaysAs(t: Tables, w: Window, first: Window, receipt: Receipt, offer: Offer, snap: Snapshot, changes: seq<Change>)
    requires w.episodes != [] && KeyOf(w) in t.receipts && t.receipts[KeyOf(w)] == first && RebuildReceipt(t, KeyOf(w)) == receipt
    ensures CommitTx(t, w, offer, snap, changes) == if first == w then Replayed(receipt) else WindowConflict
    ensures WindowOk(t, w) ==> FirstLook(t, w) == Some(if first == w then Replayed(receipt) else WindowConflict)
  {
  }

  /** A frozen context reloaded from its rows equals the one first built, in every
      later state; a different request for the run conflicts; the reload never
      finds an ambiguous ref. */
  lemma ReloadReturnsFirstContext(s: State, steps: seq<Step>, s': State, r: SelectRequest)
    requires Reachable(s) && Runs(s, steps, s') && r.run in s.tables.contexts
    ensures r.run in s.tables.shown
    ensures LoadContext(s'.tables, r) ==
            if s.tables.contexts[r.run].request == r then Frozen(s.tables.shown[r.run]) else Conflict
  {
    ReachableInv(s);
    RunPreserves(s, steps, s');
    assert ContextOk(s'.tables, r.run) && ShownOk(s'.tables, r.run);
    Reloads(s'.tables, r, s.tables.contexts[r.run], s.tables.shown[r.run]);
  }

  lemma Reloads(t: Tables, r: SelectRequest, row: ContextRow, first: MemoryContext)
    requires r.run in t.contexts && ContextOk(t, r.run) && ShownOk(t, r.run) && t.contexts[r.run] == row && t.shown[r.run] == first
    ensures LoadContext(t, r) == if row.request == r then Frozen(first) else Conflict
  {
  }

  /* ---- no lost update ---- */

  /** A Seed the snapshot showed is still active with the same text and basis. */
  ghost predicate SeedFresh(t: Tables, shown: Target, v: Version) {
    && ActiveSeed(t, v) && t.versions[v].text == shown.text && Anchors(t, v) == shown.anchors
    && shown.basis == (set b | b in t.basis && b.version == v)
    && shown.outcomeBasis == (set b | b in t.outcomeBasis && b.version == v)
  }

  /** A Recollection the snapshot showed is still active with the same text,
      application and basis. */
  ghost predicate RecollectionFresh(t: Tables, shown: Recalled, v: Version) {
    && v in t.versions && v.root.Recollection? && t.versions[v].active
    && t.versions[v].text == shown.text && t.versions[v].application == shown.application
    && shown.basis == (set b | b in t.basis && b.version == v)
  }

  /** A commit has effects only if everything it was shown still stands: each Seed,
      each Recollection, and the request the Worker would be sent. */
  lemma CommitNeedsFreshView(t: Tables, w: Window, offer: Offer, snap: Snapshot, changes: seq<Change>)
    requires CommitTx(t, w, offer, snap, changes).Done?
    ensures forall v | v in snap.targets :: SeedFresh(t, snap.targets[v], v)
    ensures forall v | v in snap.recalled :: RecollectionFresh(t, snap.recalled[v], v)
    ensures w.episodes != [] && snap.request == Render(t, w, offer, snap.targets)
  {
    DoneIs(t, w, offer, snap, changes);
    forall v | v in snap.targets ensures SeedFresh(t, snap.targets[v], v) {
      TargetFacts(t, DeskOf(w, offer, snap), v);
    }
    forall v | v in snap.recalled ensures RecollectionFresh(t, snap.recalled[v], v) {
      RecalledFacts(t, DeskOf(w, offer, snap), v);
    }
  }

  predicate Supersedes(t: Tables, t': Tables, v: Version) {
    v in t.versions && v in t'.versions && t.versions[v].active && !t'.versions[v].active
  }

  /** Two consolidations that began from the same active version never both revise
      it: once one has, no later step of any run supersedes it again, and a snapshot
      that still shows it can only be stale. */
  lemma NoLostUpdate(s: State, first: Step, steps: seq<Step>, m: State, second: Step, v: Version)
    requires Reachable(s) && Supersedes(s.tables, Do(s, first).tables, v) && Runs(Do(s, first), steps, m)
    ensures !Supersedes(m.tables, Do(m, second).tables, v)
    ensures forall w, offer, snap: Snapshot, changes :: v in snap.targets || v in snap.recalled ==>
              !CommitTx(m.tables, w, offer, snap, changes).Done?
  {
    ReachableInv(s);
    StepPreserves(s, first);
    RunPreserves(Do(s, first), steps, m);
    assert SameRow(Do(s, first).tables.versions[v], m.tables.versions[v]);
    ShownIsStale(m.tables, v);
  }

  lemma ShownIsStale(t: Tables, v: Version)
    requires v in t.versions && !t.versions[v].active
    ensures forall w, offer, snap: Snapshot, changes :: v in snap.targets || v in snap.recalled ==>
              !CommitTx(t, w, offer, snap, changes).Done?
  {
    forall w, offer, snap: Snapshot, changes | (v in snap.targets || v in snap.recalled) && CommitTx(t, w, offer, snap, changes).Done?
      ensures false
    {
      CommitNeedsFreshView(t, w, offer, snap, changes);
    }
  }

  /** An invalid batch commits no memory at all, and still freezes its receipt. */
  lemma InvalidBatchCommitsNothing(t: Tables, w: Window, offer: Offer, snap: Snapshot, changes: seq<Change>)
    requires Proceeds(t, w, offer, snap) && !ValidChanges(t, DeskOf(w, offer, snap), changes)
    ensures CommitTx(t, w, offer, snap, changes).Done?
    ensures var t' := CommitTx(t, w, offer, snap, changes).tables;
            && t'.versions == t.versions && t'.basis == t.basis && t'.outcomeBasis == t.outcomeBasis
            && t'.receipts == t.receipts[KeyOf(w) := w] && t'.returned == t.returned[KeyOf(w) := Receipt({}, {})]
  {
    CommitIs(t, w, offer, snap, changes, Applied(t, Receipt({}, {})));
  }

  /* ---- locked owners ---- */

  /** consolidationLockOwners, from the targets of the snapshot. */
  function LockOwners(w: Window, targets: Targets): set<Owner>
    requires w.episodes != []
  {
    {OwnerOf(w)} + set v | v in targets :: v.root.owner
  }

  predicate WritesWithin(t: Tables, t': Tables, owners: set<Owner>) {
    && (forall v | v in t'.versions && !(v in t.versions && t.versions[v] == t'.versions[v]) :: v.root.owner in owners)
    && (forall b | b in t'.basis && b !in t.basis :: b.version.root.owner in owners)
    && (forall b | b in t'.outcomeBasis && b !in t.outcomeBasis :: b.version.root.owner in owners)
  }

  lemma ReviseWrites(a: Applied, v: Version, text: string, job: Ref, eps: seq<Group>, outs: seq<OutcomeKey>)
    requires Revise(a, v, text, job, eps, outs).Some?
    ensures WritesWithin(a.tables, Revise(a, v, text, job, eps, outs).value.tables, {v.root.owner})
  {
  }

  lemma FormWrites(a: Applied, root: Root, text: string, application: Application, outs: seq<OutcomeKey>)
    requires Form(a, root, text, application, outs).Some?
    ensures WritesWithin(a.tables, Form(a, root, text, application, outs).value.tables, {root.owner})
  {
  }

  lemma {:induction false} ReenactWrites(t: Tables, v: Version, eps: seq<Group>)
    ensures WritesWithin(t, ReenactAll(t, v, eps), {v.root.owner})
    decreases |eps|
  {
    if eps != [] {
      ReenactWrites(t, v, eps[..|eps| - 1]);
    }
  }

  lemma ChangeWrites(a: Applied, d: Desk, c: Change)
    requires d.window.episodes != [] && ApplyChange(a, d, c).Some?
    requires forall v | v in d.recalled :: v.root.owner == OwnerOf(d.window)
    ensures WritesWithin(a.tables, ApplyChange(a, d, c).value.tables, LockOwners(d.window, d.targets))
  {
    match c.target
    case Existing(ref) =>
      if ref.V? && ref.version in d.recalled {
        RecollectionWrites(a, d, ref.version, c);
      } else if ref.V? && ref.version in d.targets {
        DispositionWrites(a, d, ref.version, c);
      }
    case _ => NewWrites(a, d, c);
  }

  lemma RecollectionWrites(a: Applied, d: Desk, v: Version, c: Change)
    requires v in d.recalled && ApplyRecollection(a, d, v, c).Some?
    ensures WritesWithin(a.tables, ApplyRecollection(a, d, v, c).value.tables, {v.root.owner})
  {
    if Revise(a, v, Trim(c.text), d.window.job, CitedEpisodes(c.basis), []).Some? {
      ReviseWrites(a, v, Trim(c.text), d.window.job, CitedEpisodes(c.basis), []);
    }
  }

  lemma DispositionWrites(a: Applied, d: Desk, v: Version, c: Change)
    requires v in d.targets && ApplyDisposition(a, d, v, c).Some?
    ensures WritesWithin(a.tables, ApplyDisposition(a, d, v, c).value.tables, {v.root.owner})
  {
    ReenactWrites(a.tables, v, CitedEpisodes(c.basis));
    var outs := if c.op == Adapt then [] else CitedOutcomes(c.basis);
    if Revise(a, v, c.text, d.window.job, CitedEpisodes(c.basis), outs).Some? {
      ReviseWrites(a, v, c.text, d.window.job, CitedEpisodes(c.basis), outs);
    }
  }

  lemma NewWrites(a: Applied, d: Desk, c: Change)
    requires d.window.episodes != [] && ApplyNew(a, d, c).Some?
    ensures WritesWithin(a.tables, ApplyNew(a, d, c).value.tables, {OwnerOf(d.window)})
  {
    var owner, text, eps := OwnerOf(d.window), Trim(c.text), CitedEpisodes(c.basis);
    var rec := Recollection(owner, d.window.job, c.application, text, eps);
    var seed := Seed(owner, d.window.job, text, eps, NewOutcomes(c));
    if Form(a, rec, text, c.application, []).Some? {
      FormWrites(a, rec, text, c.application, []);
    }
    if Form(a, seed, text, DispositionApplication(owner), NewOutcomes(c)).Some? {
      FormWrites(a, seed, text, DispositionApplication(owner), NewOutcomes(c));
    }
  }

  lemma {:induction false} BatchWrites(a: Applied, d: Desk, changes: seq<Change>)
    requires d.window.episodes != [] && ApplyAll(a, d, changes).Some?
    requires forall v | v in d.recalled :: v.root.owner == OwnerOf(d.window)
    ensures WritesWithin(a.tables, ApplyAll(a, d, changes).value.tables, LockOwners(d.window, d.targets))
    decreases |changes|
  {
    if changes != [] {
      var n := |changes| - 1;
      BatchWrites(a, d, changes[..n]);
      ChangeWrites(ApplyAll(a, d, changes[..n]).value, d, changes[n]);
      WritesAll(a.tables, ApplyAll(a, d, changes[..n]).value.tables, ApplyAll(a, d, changes).value.tables, LockOwners(d.window, d.targets));
    }
  }

  lemma WritesAll(a: Tables, b: Tables, c: Tables, owners: set<Owner>)
    requires WritesWithin(a, b, owners) && WritesWithin(b, c, owners)
    ensures WritesWithin(a, c, owners)
  {
  }

  /** Every owner a commit writes is among those it locked before re-reading. */
  lemma CommitWritesOnlyLockedOwners(t: Tables, w: Window, offer: Offer, snap: Snapshot, changes: seq<Change>)
    requires CommitTx(t, w, offer, snap, changes).Done?
    ensures w.episodes != []
    ensures WritesWithin(t, CommitTx(t, w, offer, snap, changes).tables, LockOwners(w, snap.targets))
  {
    var d := DeskOf(w, offer, snap);
    assert Proceeds(t, w, offer, snap);
    ProceedsDesk(t, w, offer, snap);
    forall v | v in d.recalled ensures v.root.owner == OwnerOf(w) {
      RecalledFacts(t, d, v);
    }
    BatchWrites(Applied(t, Receipt({}, {})), d, Chosen(t, d, changes));
  }

  /* ---- how Seeds begin ---- */

  /** Every Seed's first version, in any reachable state: two same-owner Episodes or
      more over two sessions or more with no shared sealed source and a non-Agent
      Situation in each, or exactly one Episode with a user Situation. */
  lemma SeedsBeginEligible(s: State, v: Version)
    requires Reachable(s) && v in s.tables.versions && v.root.Seed? && v.number == 1
    ensures Formed(s.tables, v)
  {
    ReachableInv(s);
  }

  /** The change that formed a version. */
  predicate FormedBy(d: Desk, c: Change, v: Version)
    requires d.window.episodes != []
  {
    && c.target == NewDisposition && v.number == 1
    && v.root == Seed(OwnerOf(d.window), d.window.job, Trim(c.text), CitedEpisodes(c.basis), NewOutcomes(c))
  }

  lemma {:induction false} NewSeedHasChange(a: Applied, d: Desk, changes: seq<Change>, v: Version) returns (i: nat)
    requires d.window.episodes != [] && ApplyAll(a, d, changes).Some? && Numbered(d)
    requires v in ApplyAll(a, d, changes).value.tables.versions && v !in a.tables.versions && v.root.Seed? && v.number == 1
    ensures i < |changes| && FormedBy(d, changes[i], v)
    decreases |changes|
  {
    if changes != [] {
      var n := |changes| - 1;
      var before := ApplyAll(a, d, changes[..n]).value;
      if v in before.tables.versions {
        i := NewSeedHasChange(a, d, changes[..n], v);
      } else {
        i := n;
        ChangeForms(before, d, changes[n], v);
      }
    }
  }

  predicate Numbered(d: Desk) {
    (forall u | u in d.targets :: u.number >= 1) && (forall u | u in d.recalled :: u.number >= 1)
  }

  lemma ChangeForms(a: Applied, d: Desk, c: Change, v: Version)
    requires d.window.episodes != [] && ApplyChange(a, d, c).Some? && Numbered(d)
    requires v in ApplyChange(a, d, c).value.tables.versions && v !in a.tables.versions && v.root.Seed? && v.number == 1
    ensures FormedBy(d, c, v)
  {
    if c.target.Existing? {
      ExistingMakes(a, d, c);
    } else {
      NewMakes(a, d, c);
    }
  }

  lemma NewMakes(a: Applied, d: Desk, c: Change)
    requires d.window.episodes != [] && !c.target.Existing? && ApplyNew(a, d, c).Some?
    ensures forall v | v in ApplyNew(a, d, c).value.tables.versions && v !in a.tables.versions && v.root.Seed? :: FormedBy(d, c, v)
  {
  }

  lemma RecollectionMakes(a: Applied, d: Desk, u: Version, c: Change)
    requires u in d.recalled && ApplyRecollection(a, d, u, c).Some?
    ensures forall v | v in ApplyRecollection(a, d, u, c).value.tables.versions && v !in a.tables.versions :: v == Next(u)
  {
  }

  lemma DispositionMakes(a: Applied, d: Desk, u: Version, c: Change)
    requires u in d.targets && ApplyDisposition(a, d, u, c).Some?
    ensures forall v | v in ApplyDisposition(a, d, u, c).value.tables.versions && v !in a.tables.versions :: v == Next(u)
  {
    if c.op == Reenact {
      ReenactMakes(a, u, CitedEpisodes(c.basis));
    } else if c.op != Inhibit {
      RevisionMakes(a, d, u, c);
    }
  }

  lemma ReenactMakes(a: Applied, u: Version, eps: seq<Group>)
    ensures ApplyReenact(a, u, eps).tables.versions == a.tables.versions
  {
    ReenactKeepsVersions(a.tables, u, eps);
  }

  lemma RevisionMakes(a: Applied, d: Desk, u: Version, c: Change)
    requires u in d.targets && ApplyRevision(a, d, u, c).Some?
    ensures forall v | v in ApplyRevision(a, d, u, c).value.tables.versions && v !in a.tables.versions :: v == Next(u)
  {
  }

  /** Changes to existing memories make only successors. */
  lemma ExistingMakes(a: Applied, d: Desk, c: Change)
    requires d.window.episodes != [] && c.target.Existing? && ApplyChange(a, d, c).Some? && Numbered(d)
    ensures forall v | v in ApplyChange(a, d, c).value.tables.versions && v !in a.tables.versions :: v.number >= 2
  {
    var ref := c.target.ref;
    if ref.V? && ref.version in d.recalled {
      RecollectionMakes(a, d, ref.version, c);
    } else if ref.V? && ref.version in d.targets {
      DispositionMakes(a, d, ref.version, c);
    }
  }

  lemma {:induction false} ReenactKeepsVersions(t: Tables, v: Version, eps: seq<Group>)
    ensures ReenactAll(t, v, eps).versions == t.versions
    decreases |eps|
  {
    if eps != [] {
      ReenactKeepsVersions(t, v, eps[..|eps| - 1]);
    }
  }

  lemma CitedSnoc(refs: seq<MemoryRef>, g: Group, o: OutcomeKey)
    ensures CitedEpisodes(refs + [E(g), O(o)]) == CitedEpisodes(refs) + [g]
    ensures CitedOutcomes(refs + [E(g), O(o)]) == CitedOutcomes(refs) + [o]
  {
    var all := refs + [E(g), O(o)];
    var most := refs + [E(g)];
    assert all[..|all| - 1] == most && most[..|most| - 1] == refs;
  }

  lemma {:induction false} AlternatingCites(focus: seq<Pair>)
    ensures |CitedEpisodes(Alternating(focus))| == |CitedOutcomes(Alternating(focus))| == |focus|
    ensures forall i :: 0 <= i < |focus| ==>
              CitedEpisodes(Alternating(focus))[i] == focus[i].episode && CitedOutcomes(Alternating(focus))[i] == focus[i].outcome
  {
    if focus != [] {
      var n := |focus| - 1;
      AlternatingCites(focus[..n]);
      CitedSnoc(Alternating(focus[..n]), focus[n].episode, focus[n].outcome);
    }
  }

  /** What one commit demanded of a Seed it formed, on all links at that moment. */
  ghost predicate FormedEligibly(t: Tables, d: Desk, c: Change, v: Version)
    requires d.window.episodes != []
  {
    && FormedBy(d, c, v)
    && match c.op
       case Adapt => |v.root.episodes| == 1 && v.root.episodes[0] in d.window.episodes && SituationBy(t, v.root.episodes[0], true)
       case TextOp =>
         && FormationBasis(t, v.root.episodes)
         && (d.offer.focus != [] ==>
               && |v.root.episodes| == |v.root.outcomes| == |d.offer.focus| >= 2
               && forall i :: 0 <= i < |d.offer.focus| ==>
                    v.root.episodes[i] == d.offer.focus[i].episode && v.root.outcomes[i] == d.offer.focus[i].outcome)
       case _ => false
  }

  lemma ValidFormsEligibly(t: Tables, d: Desk, c: Change, v: Version)
    requires d.window.episodes != [] && FormedBy(d, c, v) && ValidNewDisposition(t, d, c)
    ensures FormedEligibly(t, d, c, v)
  {
    if c.op == Adapt {
      CitedOne(c.basis);
    } else if d.offer.focus != [] {
      AlternatingCites(d.offer.focus);
    }
  }

  /** At the commit that forms a Seed its basis is eligible on every link, and when
      a focused anchor exists it is exactly the anchor-first list of pairs. */
  lemma CommitFormsEligibly(t: Tables, w: Window, offer: Offer, snap: Snapshot, changes: seq<Change>, v: Version) returns (i: nat)
    requires Inv(t) && CommitTx(t, w, offer, snap, changes).Done? && v !in t.versions
    requires v in CommitTx(t, w, offer, snap, changes).tables.versions && v.root.Seed? && v.number == 1
    ensures i < |changes| && w.episodes != [] && FormedEligibly(t, DeskOf(w, offer, snap), changes[i], v)
  {
    var d := DeskOf(w, offer, snap);
    DoneIs(t, w, offer, snap, changes);
    DoneApplied(t, w, offer, snap, changes);
    DeskNumbered(t, d);
    i := NewSeedHasChange(Applied(t, Receipt({}, {})), d, Chosen(t, d, changes), v);
    assert ValidChange(t, d, changes[i]);
    ValidFormsEligibly(t, d, changes[i], v);
  }

  /** What a commit with effects went through. */
  lemma DoneIs(t: Tables, w: Window, offer: Offer, snap: Snapshot, changes: seq<Change>)
    requires CommitTx(t, w, offer, snap, changes).Done?
    ensures Proceeds(t, w, offer, snap) && DeskOk(t, DeskOf(w, offer, snap))
  {
    ProceedsDesk(t, w, offer, snap);
  }

  lemma DoneApplied(t: Tables, w: Window, offer: Offer, snap: Snapshot, changes: seq<Change>)
    requires CommitTx(t, w, offer, snap, changes).Done? && Proceeds(t, w, offer, snap)
    ensures var d := DeskOf(w, offer, snap);
            var applied := ApplyAll(Applied(t, Receipt({}, {})), d, Chosen(t, d, changes));
            applied.Some? && CommitTx(t, w, offer, snap, changes).tables.versions == applied.value.tables.versions
  {
  }

  lemma DeskNumbered(t: Tables, d: Desk)
    requires DeskOk(t, d) && StoreOk(t.versions)
    ensures Numbered(d)
  {
    forall u | u in d.targets ensures u.number >= 1 {
      TargetFacts(t, d, u);
      assert Stored(t.versions, u);
    }
    forall u | u in d.recalled ensures u.number >= 1 {
      RecalledFacts(t, d, u);
      assert Stored(t.versions, u);
    }
  }
}
