/** Which Seeds keep a window from loading. A Seed is loaded as a feedback target
    only with anchors of its own owner, and a behavioral revision may cite an
    Episode of another one. */
module LifecycleAnchors {
  import opened Refs
  import opened Causal
  import opened LifecycleModel
  import opened LifecycleSafety
  import opened LifecycleIntake
  import opened LifecycleCommit
  import opened LifecycleBatch
  import opened LifecycleTheorems

  /** Every anchor of the version belongs to its owner. */
  predicate OwnAnchors(t: Tables, v: Version) {
    forall g | g in Anchors(t, v) :: g.run.owner == v.root.owner
  }

  /* ---- whose experience anchors a Seed ---- */

  lemma FormationIsOwn(t: Tables, v: Version, g: Group)
    requires Formed(t, v) && Basis(v, g, Formation) in t.basis
    ensures g.run.owner == v.root.owner
  {
    assert g in BasisIn(t, v, {Formation}) && g in v.root.episodes;
  }

  lemma FedIsVisible(t: Tables, v: Version, g: Group, d: DeliveryKey)
    requires IntakeOk(t) && Chain(t, v, g, d)
    ensures Visible(g.run, v)
  {
    assert ContextOk(t, g.run);
  }

  lemma RevisedIsVisible(t: Tables, v: Version, g: Group)
    requires IntakeOk(t) && HasOutcome(t, v, g, Revision)
    requires forall b | b in t.outcomeBasis :: OutcomeBasisOk(t, b)
    ensures Visible(g.run, v)
  {
    var o :| OutcomeBasis(v, o, Revision) in t.outcomeBasis && o.group == g;
    assert OutcomeBasisOk(t, OutcomeBasis(v, o, Revision));
    var d :| d in t.outcomes[o].deliveries && Chain(t, Prior(v), o.group, d);
    FedIsVisible(t, Prior(v), g, d);
  }

  lemma AnchorRole(t: Tables, v: Version, g: Group)
    requires g in Anchors(t, v)
    ensures Basis(v, g, Formation) in t.basis || Basis(v, g, Revision) in t.basis
  {
    var b :| b in t.basis && b.version == v && b.role in {Formation, Revision} && b.episode == g;
  }

  lemma {:induction false} AnchorIsVisible(t: Tables, v: Version, g: Group)
    requires IntakeOk(t) && MemoryOk(t) && v in t.versions && v.root.Seed? && g in Anchors(t, v)
    ensures Visible(g.run, v)
    decreases v.number
  {
    assert Stored(t.versions, v);
    AnchorRole(t, v, g);
    if Basis(v, g, Formation) in t.basis {
      assert BasisOk(t, Basis(v, g, Formation));
      FormationIsOwn(t, v, g);
    } else {
      assert BasisOk(t, Basis(v, g, Revision));
      assert RevisionReason(t, v, g);
      if HasOutcome(t, v, g, Revision) {
        RevisedIsVisible(t, v, g);
      } else if g in Anchors(t, Prior(v)) {
        AnchorIsVisible(t, Prior(v), g);
      }
    }
  }

  /** A Seed's anchors lie in runs that may see it; so those of a relationship's
      Seed are its own, and a foreign anchor of an Agent's Seed belongs to one of
      that Agent's relationships. */
  lemma AnchorOwners(s: State, v: Version, g: Group)
    requires Reachable(s) && v in s.tables.versions && v.root.Seed? && g in Anchors(s.tables, v)
    ensures Visible(g.run, v)
    ensures v.root.owner.relationship ==> g.run.owner == v.root.owner
    ensures g.run.owner != v.root.owner ==>
              g.run.owner.relationship && v.root.owner == Owner(false, g.run.owner.tenant, g.run.owner.agent, "")
  {
    ReachableInv(s);
    AnchorIsVisible(s.tables, v, g);
  }

  /* ---- exactly when a window loads ---- */

  lemma AnchorsLoadIff(t: Tables, v: Version)
    requires forall b | b in t.basis :: BasisOk(t, b)
    ensures AnchorsLoad(t, v) <==> OwnAnchors(t, v)
  {
    forall g | g in Anchors(t, v) ensures FormationRoles(t, g) {
      var b :| b in t.basis && b.version == v && b.role in {Formation, Revision} && b.episode == g;
      assert BasisOk(t, b);
    }
  }

  /** A well-formed window with a sound offer loads if and only if every target it
      shows has only anchors of its own owner. */
  lemma WindowLoadsIff(s: State, w: Window, offer: Offer)
    requires Reachable(s) && WindowOk(s.tables, w) && OfferOk(s.tables, w, offer) && WindowOutcomesOk(s.tables, w)
    ensures TakeSnapshot(s.tables, w, offer).Some? <==>
            forall v | v in TargetVersions(s.tables, w, offer.hints) :: OwnAnchors(s.tables, v)
  {
    ReachableInv(s);
    LoadsIff(s.tables, w, offer);
  }

  lemma LoadsIff(t: Tables, w: Window, offer: Offer)
    requires (forall b | b in t.basis :: BasisOk(t, b)) && WindowOk(t, w) && OfferOk(t, w, offer) && WindowOutcomesOk(t, w)
    ensures TakeSnapshot(t, w, offer).Some? <==> forall v | v in TargetVersions(t, w, offer.hints) :: OwnAnchors(t, v)
  {
    SnapshotIff(t, w, offer);
    FeedbackLoadsIff(t, w, offer.hints);
  }

  lemma SnapshotIff(t: Tables, w: Window, offer: Offer)
    requires WindowOk(t, w) && OfferOk(t, w, offer)
    ensures TakeSnapshot(t, w, offer).Some? <==> LoadFeedback(t, w, offer.hints).Some?
  {
  }

  lemma FeedbackLoadsIff(t: Tables, w: Window, hints: set<Version>)
    requires (forall b | b in t.basis :: BasisOk(t, b)) && w.episodes != [] && WindowOutcomesOk(t, w)
    ensures LoadFeedback(t, w, hints).Some? <==> forall v | v in TargetVersions(t, w, hints) :: OwnAnchors(t, v)
  {
    forall v | v in TargetVersions(t, w, hints) ensures AnchorsLoad(t, v) <==> OwnAnchors(t, v) {
      AnchorsLoadIff(t, v);
    }
    LoadFeedbackIff(t, w, hints);
  }

  lemma LoadFeedbackIff(t: Tables, w: Window, hints: set<Version>)
    requires w.episodes != [] && WindowOutcomesOk(t, w)
    ensures LoadFeedback(t, w, hints).Some? <==> forall v | v in TargetVersions(t, w, hints) :: AnchorsLoad(t, v)
  {
  }

  /* ---- a foreign anchor blocks for ever ---- */

  /** An active Seed with an anchor of another owner. */
  predicate Blocking(t: Tables, v: Version) {
    ActiveSeed(t, v) && !OwnAnchors(t, v)
  }

  lemma BlockingIsNoTarget(t: Tables, w: Window, offer: Offer, v: Version)
    requires Blocking(t, v) && w.episodes != [] && v in TargetVersions(t, w, offer.hints)
    ensures TakeSnapshot(t, w, offer).None?
  {
    assert !AnchorsLoad(t, v);
  }

  lemma TouchedAreShown(t: Tables, d: Desk, changes: seq<Change>, v: Version)
    requires d.window.episodes != [] && v in Touched(Chosen(t, d, changes))
    ensures v in d.recalled || v in d.targets
  {
    var chosen := Chosen(t, d, changes);
    var i :| 0 <= i < |chosen| && chosen[i].target.Existing? && chosen[i].target.ref.V? && chosen[i].target.ref.version == v;
    assert ValidChange(t, d, chosen[i]);
  }

  /** A commit revises only what it was shown, and a blocking Seed is never shown. */
  lemma CommitLeavesBlocking(t: Tables, w: Window, offer: Offer, snap: Snapshot, changes: seq<Change>, v: Version)
    requires Inv(t) && Blocking(t, v)
    ensures ActiveSeed(CommitResult(t, CommitTx(t, w, offer, snap, changes)), v)
  {
    CommitNeverAborts(t, w, offer, snap, changes);
    if Proceeds(t, w, offer, snap) {
      var d := DeskOf(w, offer, snap);
      ProceedsDesk(t, w, offer, snap);
      var a, touched := CommitApplies(t, w, offer, snap, changes);
      if v in touched {
        TouchedAreShown(t, d, changes, v);
        ShownLoads(t, d, v);
      }
      assert SameVersion(t, a.tables, v);
    }
  }

  lemma ShownLoads(t: Tables, d: Desk, v: Version)
    requires DeskOk(t, d) && (v in d.recalled || v in d.targets) && v.root.Seed?
    ensures AnchorsLoad(t, v)
  {
    if v in d.targets {
      TargetFacts(t, d, v);
    } else {
      RecalledFacts(t, d, v);
      assert false;
    }
  }

  lemma StepLeavesActive(s: State, step: Step, v: Version)
    requires Inv(s.tables) && Blocking(s.tables, v)
    ensures ActiveSeed(TablesAfter(s, step), v)
  {
    if !step.CommitStep? {
      IntakeKeepsMemory(s, step);
    } else {
      CommitStepLeavesActive(s, step, v);
    }
  }

  lemma CommitStepLeavesActive(s: State, step: Step, v: Version)
    requires Inv(s.tables) && Blocking(s.tables, v) && step.CommitStep?
    ensures ActiveSeed(TablesAfter(s, step), v)
  {
    var t' := CommitStepResult(s, step);
    if step.pid in s.snapshots {
      CommitLeavesBlocking(s.tables, s.snapshots[step.pid].0, step.offer, s.snapshots[step.pid].1, step.changes, v);
    }
  }

  lemma StepLeavesBlocking(s: State, step: Step, v: Version)
    requires Inv(s.tables) && Blocking(s.tables, v)
    ensures Blocking(Do(s, step).tables, v)
  {
    StepPreserves(s, step);
    StepLeavesActive(s, step, v);
    BasisInGrows(s.tables, Do(s, step).tables, v);
  }

  lemma {:induction false} RunLeavesBlocking(s: State, steps: seq<Step>, s': State, v: Version)
    requires Inv(s.tables) && Blocking(s.tables, v) && Runs(s, steps, s')
    ensures Blocking(s'.tables, v)
    decreases |steps|
  {
    if steps != [] {
      StepPreserves(s, steps[0]);
      StepLeavesBlocking(s, steps[0], v);
      RunLeavesBlocking(Do(s, steps[0]), steps[1..], s', v);
    }
  }

  /** Once an active Seed has an anchor of another owner, nothing ever revises it,
      and in every later state no window that shows it loads. */
  lemma ForeignAnchorBlocksForever(s: State, steps: seq<Step>, s': State, v: Version)
    requires Reachable(s) && Blocking(s.tables, v) && Runs(s, steps, s')
    ensures Blocking(s'.tables, v)
    ensures forall w: Window, offer: Offer :: w.episodes != [] && v in TargetVersions(s'.tables, w, offer.hints) ==>
              TakeSnapshot(s'.tables, w, offer).None?
  {
    ReachableInv(s);
    RunLeavesBlocking(s, steps, s', v);
    forall w: Window, offer: Offer | w.episodes != [] && v in TargetVersions(s'.tables, w, offer.hints)
      ensures TakeSnapshot(s'.tables, w, offer).None?
    {
      BlockingIsNoTarget(s'.tables, w, offer, v);
    }
  }

  /** The window must show the version: it was delivered through one of its Episodes. */
  predicate MustShow(t: Tables, w: Window, v: Version) {
    exists i :: 0 <= i < |w.episodes| && v.root.owner.tenant == w.episodes[i].run.owner.tenant && ChainReceipts(t, v, w.episodes[i]) != {}
  }

  lemma MustShowGrows(t: Tables, t': Tables, w: Window, v: Version)
    requires MustShow(t, w, v) && IntakeGrows(t, t')
    ensures MustShow(t', w, v)
  {
    var i :| 0 <= i < |w.episodes| && v.root.owner.tenant == w.episodes[i].run.owner.tenant && ChainReceipts(t, v, w.episodes[i]) != {};
    var d :| d in ChainReceipts(t, v, w.episodes[i]);
    ChainGrows(t, t', v, w.episodes[i], d);
    assert d in ChainReceipts(t', v, w.episodes[i]);
  }

  lemma ShownBlocks(t: Tables, w: Window, offer: Offer, v: Version)
    requires Blocking(t, v) && MustShow(t, w, v)
    ensures TakeSnapshot(t, w, offer).None?
  {
    var i :| 0 <= i < |w.episodes| && v.root.owner.tenant == w.episodes[i].run.owner.tenant && ChainReceipts(t, v, w.episodes[i]) != {};
    assert w.episodes[i] in w.episodes;
    assert v in TargetVersions(t, w, offer.hints);
    BlockingIsNoTarget(t, w, offer, v);
  }
}
