/** What holds in every reachable state of the lifecycle, and over every run. */
module LifecycleTheorems {
  import opened Refs
  import opened Causal
  import opened LifecycleModel
  import opened LifecycleSafety
  import opened LifecycleIntake
  import opened LifecycleCommit
  import opened LifecycleChanges
  import opened LifecycleBatch

  /* ---- the commit transaction ---- */

  /** The desk of a commit that passed the staleness check. */
  function DeskOf(w: Window, offer: Offer, snap: Snapshot): Desk {
    Desk(w, snap.targets, snap.recalled, offer)
  }

  predicate Proceeds(t: Tables, w: Window, offer: Offer, snap: Snapshot) {
    w.episodes != [] && KeyOf(w) !in t.receipts && TakeSnapshot(t, w, offer) == Some(snap)
  }

  lemma ProceedsDesk(t: Tables, w: Window, offer: Offer, snap: Snapshot)
    requires Proceeds(t, w, offer, snap)
    ensures DeskOk(t, DeskOf(w, offer, snap))
  {
  }

  /** A commit that is not replayed, invalid or stale always succeeds: no
      constraint is violated and no row it revises has moved. */
  lemma CommitApplies(t: Tables, w: Window, offer: Offer, snap: Snapshot, changes: seq<Change>) returns (a: Applied, touched: set<Version>)
    requires Inv(t) && Proceeds(t, w, offer, snap)
    ensures Mid(t, w, a, touched) && touched == Touched(Chosen(t, DeskOf(w, offer, snap), changes))
    ensures CommitTx(t, w, offer, snap, changes) == Done(FreezeReceipt(a, w))
  {
    var d := DeskOf(w, offer, snap);
    ProceedsDesk(t, w, offer, snap);
    StartBatch(t, d);
    ChosenValid(t, d, changes);
    a := BatchKept(t, d, Chosen(t, d, changes));
    touched := Touched(Chosen(t, d, changes));
    CommitIs(t, w, offer, snap, changes, a);
  }

  lemma StartBatch(t: Tables, d: Desk)
    requires Inv(t) && DeskOk(t, d)
    ensures Begun(t, d)
  {
  }

  lemma ChosenValid(t: Tables, d: Desk, changes: seq<Change>)
    requires d.window.episodes != []
    ensures ValidChanges(t, d, Chosen(t, d, changes))
  {
  }

  lemma CommitIs(t: Tables, w: Window, offer: Offer, snap: Snapshot, changes: seq<Change>, a: Applied)
    requires Proceeds(t, w, offer, snap)
    requires ApplyAll(Applied(t, Receipt({}, {})), DeskOf(w, offer, snap), Chosen(t, DeskOf(w, offer, snap), changes)) == Some(a)
    ensures CommitTx(t, w, offer, snap, changes) == Done(FreezeReceipt(a, w))
  {
  }

  lemma CommitNeverAborts(t: Tables, w: Window, offer: Offer, snap: Snapshot, changes: seq<Change>)
    requires Inv(t)
    ensures CommitTx(t, w, offer, snap, changes) != Aborted
    ensures CommitTx(t, w, offer, snap, changes).Done? <==> Proceeds(t, w, offer, snap)
  {
    if Proceeds(t, w, offer, snap) {
      var _, _ := CommitApplies(t, w, offer, snap, changes);
    } else {
      EndsEarly(t, w, offer, snap, changes);
    }
  }

  lemma EndsEarly(t: Tables, w: Window, offer: Offer, snap: Snapshot, changes: seq<Change>)
    requires !Proceeds(t, w, offer, snap)
    ensures CommitTx(t, w, offer, snap, changes) != Aborted && !CommitTx(t, w, offer, snap, changes).Done?
  {
  }

  /* ---- the commit keeps the invariant ---- */

  lemma RebuildOld(t: Tables, w: Window, a: Applied, touched: set<Version>, t': Tables, key: ReceiptKey)
    requires ReceiptsOk(t) && w.episodes != [] && Mid(t, w, a, touched) && t'.versions == a.tables.versions
    requires key in t.receipts && KeyOf(w) !in t.receipts
    ensures RebuildReceipt(t', key) == RebuildReceipt(t, key)
  {
    JobsKept(t, w, a, touched);
    RebuildSame(t, t', key);
  }

  lemma RebuildSame(t: Tables, t': Tables, key: ReceiptKey)
    requires forall v | v in t.versions :: v in t'.versions && t'.versions[v].job == t.versions[v].job
    requires forall v | v in t'.versions && v !in t.versions :: ReceiptKey(v.root.owner.tenant, t'.versions[v].job) != key
    ensures RebuildReceipt(t', key) == RebuildReceipt(t, key)
  {
  }

  /** Old versions keep their job; new ones carry the window's. */
  lemma JobsKept(t: Tables, w: Window, a: Applied, touched: set<Version>)
    requires w.episodes != [] && Mid(t, w, a, touched)
    ensures forall v | v in t.versions :: v in a.tables.versions && a.tables.versions[v].job == t.versions[v].job
    ensures forall v | v in a.tables.versions && v !in t.versions :: a.tables.versions[v].job == w.job && v.root.owner.tenant == OwnerOf(w).tenant
  {
    forall v | v in t.versions ensures v in a.tables.versions && a.tables.versions[v].job == t.versions[v].job {
      assert SameRow(t.versions[v], a.tables.versions[v]);
    }
  }

  lemma RebuildNew(t: Tables, w: Window, a: Applied, touched: set<Version>, t': Tables)
    requires ReceiptsOk(t) && w.episodes != [] && Mid(t, w, a, touched) && t'.versions == a.tables.versions && KeyOf(w) !in t.receipts
    ensures RebuildReceipt(t', KeyOf(w)) == a.receipt
  {
    JobsKept(t, w, a, touched);
    assert forall v | v in t.versions :: ReceiptKey(v.root.owner.tenant, t'.versions[v].job) != KeyOf(w);
  }

  lemma CommitExtends(t: Tables, w: Window, a: Applied, touched: set<Version>)
    requires w.episodes != [] && Mid(t, w, a, touched) && KeyOf(w) !in t.receipts
    requires t.returned.Keys == t.receipts.Keys
    ensures Extends(a.tables, FreezeReceipt(a, w)) && Extends(t, FreezeReceipt(a, w))
  {
    GrowthExtends(t, a.tables);
    ExtendsAll(t, a.tables, FreezeReceipt(a, w));
  }

  lemma CommitIntake(t: Tables, t': Tables)
    requires IntakeOk(t) && Extends(t, t') && t'.links == t.links && t'.sources == t.sources && t'.contexts == t.contexts
    requires t'.shown == t.shown && t'.deliveries == t.deliveries && t'.outcomes == t.outcomes
    ensures IntakeOk(t')
  {
    RowsGrow(t, t');
    forall l | l in t'.links ensures LinkOk(t', l) && t'.links[l] < t'.now {
      assert LinkOk(t, l);
    }
  }

  lemma CommitReceipts(t: Tables, w: Window, a: Applied, touched: set<Version>, t': Tables)
    requires ReceiptsOk(t) && w.episodes != [] && Mid(t, w, a, touched) && KeyOf(w) !in t.receipts && t' == FreezeReceipt(a, w)
    ensures ReceiptsOk(t')
  {
    RebuildNew(t, w, a, touched, t');
    forall key | key in t'.receipts ensures t'.returned[key] == RebuildReceipt(t', key) {
      if key != KeyOf(w) {
        RebuildOld(t, w, a, touched, t', key);
      }
    }
    forall v | v in t'.versions ensures ReceiptKey(v.root.owner.tenant, t'.versions[v].job) in t'.receipts && t'.versions[v].at < t'.now {
      assert v in t.versions ==> SameRow(t.versions[v], t'.versions[v]);
    }
  }

  lemma CommitKeeps(t: Tables, w: Window, offer: Offer, snap: Snapshot, changes: seq<Change>) returns (t': Tables)
    requires Inv(t) && Proceeds(t, w, offer, snap)
    ensures CommitTx(t, w, offer, snap, changes) == Done(t') && Inv(t') && Extends(t, t')
  {
    var a, touched := CommitApplies(t, w, offer, snap, changes);
    t' := FreezeReceipt(a, w);
    CommitSealed(t, w, a, touched, t');
  }

  lemma CommitSealed(t: Tables, w: Window, a: Applied, touched: set<Version>, t': Tables)
    requires Inv(t) && w.episodes != [] && Mid(t, w, a, touched) && KeyOf(w) !in t.receipts && t' == FreezeReceipt(a, w)
    ensures Inv(t') && Extends(t, t')
  {
    CommitExtends(t, w, a, touched);
    CommitReceipts(t, w, a, touched, t');
    CommitMemory(t, w, a, touched, t');
    CommitSameIntake(t, w, a, touched, t');
    CommitIntake(t, t');
  }

  lemma CommitSameIntake(t: Tables, w: Window, a: Applied, touched: set<Version>, t': Tables)
    requires w.episodes != [] && Mid(t, w, a, touched) && t' == FreezeReceipt(a, w)
    ensures t'.links == t.links && t'.sources == t.sources && t'.contexts == t.contexts
    ensures t'.shown == t.shown && t'.deliveries == t.deliveries && t'.outcomes == t.outcomes
  {
  }

  lemma CommitMemory(t: Tables, w: Window, a: Applied, touched: set<Version>, t': Tables)
    requires w.episodes != [] && Mid(t, w, a, touched) && t' == FreezeReceipt(a, w) && Extends(a.tables, t')
    ensures MemoryOk(t')
  {
    MemoryGrows(a.tables, t');
  }

  /* ---- every step, every run ---- */

  ghost predicate Kept(t: Tables, t': Tables) {
    var whole := Inv(t') && Extends(t, t');
    whole
  }

  lemma KeptSelf(t: Tables)
    requires Inv(t)
    ensures Kept(t, t)
  {
    ExtendsSelf(t);
  }

  lemma ObserveStepKept(t: Tables, e: Event, b: Binding)
    requires Inv(t)
    ensures Kept(t, Settle(t, ObserveTx(t, e, b)))
  {
    KeptSelf(t);
    if ObserveTx(t, e, b).Some? {
      ObserveKeeps(t, e, b);
    }
  }

  lemma OutcomeStepKept(t: Tables, key: Ref, e: Event, run: Ref, group: Ref, deliveries: set<DeliveryKey>, related: set<Ref>)
    requires Inv(t)
    ensures Kept(t, Settle(t, OutcomeTx(t, key, e, run, group, deliveries, related)))
  {
    KeptSelf(t);
    if OutcomeTx(t, key, e, run, group, deliveries, related).Some? {
      OutcomeKeeps(t, key, e, run, group, deliveries, related);
    }
  }

  lemma SelectStepKept(t: Tables, r: SelectRequest, picks: seq<Pick>, evidence: seq<Exhibit>)
    requires Inv(t)
    ensures Kept(t, Settle(t, SelectTx(t, r, picks, evidence)))
  {
    KeptSelf(t);
    if SelectTx(t, r, picks, evidence).Some? {
      var t' := SelectFacts(t, r, picks, evidence);
      SelectKeeps(t, t', r, picks, evidence);
      QuietKeeps(t, t');
    }
  }

  lemma DeliverStepKept(t: Tables, key: Ref, run: Run, context: SelectRequest, memories: set<MemoryRef>)
    requires Inv(t)
    ensures Kept(t, Settle(t, DeliverTx(t, key, run, context, memories)))
  {
    KeptSelf(t);
    if DeliverTx(t, key, run, context, memories).Some? {
      var t' := DeliverFacts(t, key, run, context, memories);
      DeliverKeeps(t, t', DeliveryKey(run.owner.tenant, key), DeliveryRow(run, context, memories, t.now));
      QuietKeeps(t, t');
    }
  }

  lemma DeliverFacts(t: Tables, key: Ref, run: Run, context: SelectRequest, memories: set<MemoryRef>) returns (t': Tables)
    requires DeliverTx(t, key, run, context, memories).Some?
    ensures DeliverTx(t, key, run, context, memories) == Some(t') && CanDeliver(t, run, context, memories)
    ensures DeliveryKey(run.owner.tenant, key) !in t.deliveries
    ensures t' == t.(deliveries := t.deliveries[DeliveryKey(run.owner.tenant, key) := DeliveryRow(run, context, memories, t.now)], now := t.now + 1)
  {
    t' := DeliverTx(t, key, run, context, memories).value;
  }

  lemma StepPreserves(s: State, step: Step)
    requires Inv(s.tables)
    ensures Kept(s.tables, Do(s, step).tables)
  {
    TablesKept(s, step);
  }

  lemma TablesKept(s: State, step: Step)
    requires Inv(s.tables)
    ensures Kept(s.tables, TablesAfter(s, step))
  {
    if step.ObserveStep? || step.OutcomeStep? {
      EvidenceStepKept(s, step);
    } else if step.SelectStep? || step.DeliverStep? {
      ContextStepKept(s, step);
    } else {
      MemoryStepKept(s, step);
    }
  }

  lemma EvidenceStepKept(s: State, step: Step)
    requires Inv(s.tables) && (step.ObserveStep? || step.OutcomeStep?)
    ensures Kept(s.tables, TablesAfter(s, step))
  {
    if step.ObserveStep? {
      ObserveStepKept(s.tables, step.event, step.binding);
    } else {
      OutcomeStepKept(s.tables, step.key, step.event, step.runRef, step.group, step.deliveries, step.related);
    }
  }

  lemma ContextStepKept(s: State, step: Step)
    requires Inv(s.tables) && (step.SelectStep? || step.DeliverStep?)
    ensures Kept(s.tables, TablesAfter(s, step))
  {
    if step.SelectStep? {
      SelectStepKept(s.tables, step.request, step.picks, step.evidence);
    } else {
      DeliverStepKept(s.tables, step.key, step.run, step.context, step.memories);
    }
  }

  lemma MemoryStepKept(s: State, step: Step)
    requires Inv(s.tables) && (step.SnapshotStep? || step.CommitStep?)
    ensures Kept(s.tables, TablesAfter(s, step))
  {
    KeptSelf(s.tables);
    if step.CommitStep? {
      var t' := CommitStepResult(s, step);
      if step.pid in s.snapshots {
        CommitStepKept(s.tables, s.snapshots[step.pid].0, step.offer, s.snapshots[step.pid].1, step.changes);
      }
    }
  }

  lemma CommitStepResult(s: State, step: Step) returns (t': Tables)
    requires step.CommitStep?
    ensures TablesAfter(s, step) == t'
    ensures t' == if step.pid !in s.snapshots then s.tables
                  else CommitResult(s.tables, CommitTx(s.tables, s.snapshots[step.pid].0, step.offer, s.snapshots[step.pid].1, step.changes))
  {
    t' := TablesAfter(s, step);
  }

  lemma CommitStepKept(t: Tables, w: Window, offer: Offer, snap: Snapshot, changes: seq<Change>)
    requires Inv(t)
    ensures Kept(t, CommitResult(t, CommitTx(t, w, offer, snap, changes)))
  {
    KeptSelf(t);
    CommitNeverAborts(t, w, offer, snap, changes);
    if Proceeds(t, w, offer, snap) {
      var _ := CommitKeeps(t, w, offer, snap, changes);
    }
  }

  lemma {:induction false} RunPreserves(s: State, steps: seq<Step>, s': State)
    requires Inv(s.tables) && Runs(s, steps, s')
    ensures Kept(s.tables, s'.tables)
    decreases |steps|
  {
    if steps == [] {
      ExtendsSelf(s.tables);
    } else {
      var m := Do(s, steps[0]);
      StepPreserves(s, steps[0]);
      RunPreserves(m, steps[1..], s');
      ExtendsAll(s.tables, m.tables, s'.tables);
    }
  }

  lemma EmptyOk()
    ensures Inv(Empty())
  {
  }

  lemma ReachableInv(s: State)
    requires Reachable(s)
    ensures Inv(s.tables)
  {
    EmptyOk();
    var steps :| Runs(State(Empty(), map[]), steps, s);
    RunPreserves(State(Empty(), map[]), steps, s);
  }

  lemma {:induction false} RunsSnoc(a: State, steps: seq<Step>, b: State, step: Step)
    requires Runs(a, steps, b)
    ensures Runs(a, steps + [step], Do(b, step))
    decreases |steps|
  {
    if steps == [] {
      assert steps + [step] == [step] && [step][1..] == [];
      assert Runs(Do(b, step), [], Do(b, step));
    } else {
      RunsSnoc(Do(a, steps[0]), steps[1..], b, step);
      assert (steps + [step])[1..] == steps[1..] + [step];
    }
  }

  lemma ReachableNext(s: State, step: Step)
    requires Reachable(s)
    ensures Reachable(Do(s, step))
  {
    var steps :| Runs(State(Empty(), map[]), steps, s);
    RunsSnoc(State(Empty(), map[]), steps, s, step);
  }

  lemma ReachableEmpty()
    ensures Reachable(State(Empty(), map[]))
  {
    assert Runs(State(Empty(), map[]), [], State(Empty(), map[]));
  }

  /* ---- committed windows still load ---- */

  /** The window of every receipt loads, under its own key. */
  ghost predicate WindowsLoad(t: Tables) {
    forall key | key in t.receipts :: LoadsAs(t, t.receipts[key], key)
  }

  predicate LoadsAs(t: Tables, w: Window, key: ReceiptKey) {
    WindowOk(t, w) && KeyOf(w) == key
  }

  lemma WindowOkGrows(t: Tables, t': Tables, w: Window)
    requires WindowOk(t, w) && IntakeGrows(t, t')
    ensures WindowOk(t', w)
  {
    forall i | 0 <= i < |w.episodes| ensures FormationRoles(t', w.episodes[i]) {
      FormationRolesGrow(t, t', w.episodes[i]);
    }
  }

  /** Only a commit touches versions and receipts. */
  ghost predicate MemoryKept(t: Tables, t': Tables) {
    t'.versions == t.versions && t'.receipts == t.receipts
  }

  lemma ObserveKeepsMemory(t: Tables, e: Event, b: Binding)
    ensures MemoryKept(t, Settle(t, ObserveTx(t, e, b)))
  {
  }

  lemma SelectKeepsMemory(t: Tables, r: SelectRequest, picks: seq<Pick>, evidence: seq<Exhibit>)
    ensures MemoryKept(t, Settle(t, SelectTx(t, r, picks, evidence)))
  {
  }

  lemma DeliverKeepsMemory(t: Tables, key: Ref, run: Run, context: SelectRequest, memories: set<MemoryRef>)
    ensures MemoryKept(t, Settle(t, DeliverTx(t, key, run, context, memories)))
  {
  }

  lemma OutcomeKeepsMemory(t: Tables, key: Ref, e: Event, run: Ref, group: Ref, deliveries: set<DeliveryKey>, related: set<Ref>)
    ensures MemoryKept(t, Settle(t, OutcomeTx(t, key, e, run, group, deliveries, related)))
  {
  }

  lemma IntakeKeepsMemory(s: State, step: Step)
    requires !step.CommitStep?
    ensures MemoryKept(s.tables, TablesAfter(s, step))
  {
    var t := s.tables;
    match step
    case ObserveStep(e, b) => ObserveKeepsMemory(t, e, b);
    case SelectStep(r, picks, evidence) => SelectKeepsMemory(t, r, picks, evidence);
    case DeliverStep(key, run, context, memories) => DeliverKeepsMemory(t, key, run, context, memories);
    case OutcomeStep(key, e, run, group, deliveries, related) => OutcomeKeepsMemory(t, key, e, run, group, deliveries, related);
    case SnapshotStep(_, _, _) =>
  }

  lemma CommitAddsReceipt(t: Tables, w: Window, offer: Offer, snap: Snapshot, changes: seq<Change>)
    requires Inv(t) && Proceeds(t, w, offer, snap)
    ensures CommitResult(t, CommitTx(t, w, offer, snap, changes)).receipts == t.receipts[KeyOf(w) := w] && LoadsAs(t, w, KeyOf(w))
  {
    var a, touched := CommitApplies(t, w, offer, snap, changes);
    ProceedsDesk(t, w, offer, snap);
  }

  /** A step adds only receipts of windows that load. */
  lemma NewReceiptsLoad(s: State, step: Step, key: ReceiptKey)
    requires Inv(s.tables) && key in TablesAfter(s, step).receipts && key !in s.tables.receipts
    ensures LoadsAs(s.tables, TablesAfter(s, step).receipts[key], key)
  {
    if !step.CommitStep? {
      IntakeKeepsMemory(s, step);
    } else if step.pid in s.snapshots {
      var w, snap := s.snapshots[step.pid].0, s.snapshots[step.pid].1;
      CommitNeverAborts(s.tables, w, step.offer, snap, step.changes);
      if Proceeds(s.tables, w, step.offer, snap) {
        CommitAddsReceipt(s.tables, w, step.offer, snap, step.changes);
      }
    }
  }

  lemma StepKeepsWindows(s: State, step: Step)
    requires Inv(s.tables) && WindowsLoad(s.tables)
    ensures WindowsLoad(Do(s, step).tables)
  {
    var t, t' := s.tables, Do(s, step).tables;
    StepPreserves(s, step);
    forall key | key in t'.receipts ensures LoadsAs(t', t'.receipts[key], key) {
      if key !in t.receipts {
        NewReceiptsLoad(s, step, key);
      } else {
        assert LoadsAs(t, t.receipts[key], key) && t'.receipts[key] == t.receipts[key];
      }
      WindowOkGrows(t, t', t'.receipts[key]);
    }
  }

  lemma {:induction false} RunKeepsWindows(s: State, steps: seq<Step>, s': State)
    requires Inv(s.tables) && WindowsLoad(s.tables) && Runs(s, steps, s')
    ensures WindowsLoad(s'.tables)
    decreases |steps|
  {
    if steps != [] {
      StepPreserves(s, steps[0]);
      StepKeepsWindows(s, steps[0]);
      RunKeepsWindows(Do(s, steps[0]), steps[1..], s');
    }
  }

  lemma ReachableWindowsLoad(s: State)
    requires Reachable(s)
    ensures WindowsLoad(s.tables)
  {
    EmptyOk();
    var steps :| Runs(State(Empty(), map[]), steps, s);
    RunKeepsWindows(State(Empty(), map[]), steps, s);
  }

  /** Nothing recorded is lost or rewritten: rows only accumulate, versions change
      only from active to superseded, and a sealed Episode gains only Outcomes. */
  lemma HistoryIsAppendOnly(s: State, steps: seq<Step>, s': State)
    requires Reachable(s) && Runs(s, steps, s')
    ensures Extends(s.tables, s'.tables)
  {
    ReachableInv(s);
    RunPreserves(s, steps, s');
  }
}
