/** Observe, Select, Deliver and Outcome each keep the lifecycle invariant. */
module LifecycleIntake {
  import opened Refs
  import opened Causal
  import opened LifecycleModel
  import opened LifecycleSafety

  ghost predicate ReceiptsOk(t: Tables) {
    && t.returned.Keys == t.receipts.Keys
    && (forall key | key in t.receipts :: t.returned[key] == RebuildReceipt(t, key))
    && (forall v | v in t.versions :: ReceiptKey(v.root.owner.tenant, t.versions[v].job) in t.receipts && t.versions[v].at < t.now)
  }

  ghost predicate Inv(t: Tables) {
    var whole := IntakeOk(t) && MemoryOk(t) && ReceiptsOk(t);
    whole
  }

  /** Transactions outside consolidation touch no memory. */
  predicate SameMemory(t: Tables, t': Tables) {
    && t'.versions == t.versions && t'.basis == t.basis && t'.outcomeBasis == t.outcomeBasis
    && t'.receipts == t.receipts && t'.returned == t.returned
  }

  lemma SameMemoryKeeps(t: Tables, t': Tables)
    requires MemoryOk(t) && ReceiptsOk(t) && SameMemory(t, t') && Extends(t, t')
    ensures MemoryOk(t') && ReceiptsOk(t')
  {
    MemoryGrows(t, t');
    forall key | key in t'.receipts ensures key in t'.returned && t'.returned[key] == RebuildReceipt(t', key) {
      assert RebuildReceipt(t', key) == RebuildReceipt(t, key);
    }
  }

  /* ---- links ---- */

  /** One more link of a valid event, stamped with the current transaction. */
  ghost predicate LinkAdded(t: Tables, t': Tables, e: Event, b: Binding) {
    && Observe(t.sources, t.links.Keys, e, b).Ok?
    && t'.sources == Observe(t.sources, t.links.Keys, e, b).value.sources
    && t'.links == Stamp(t, Observe(t.sources, t.links.Keys, e, b).value.links)
    && t'.now == t.now + 1 && t'.contexts == t.contexts && t'.deliveries == t.deliveries && t'.shown == t.shown && SameMemory(t, t')
    && MapGrows(t.outcomes, t'.outcomes)
  }

  lemma LinkAddedExtends(t: Tables, t': Tables, e: Event, b: Binding)
    requires LinkAdded(t, t', e, b)
    ensures Extends(t, t')
    ensures forall l | l in t'.links && l !in t.links :: t'.links[l] == t.now && l == Link(GroupOf(e, b), e.key.ref, b.role)
    ensures forall k | k in t'.sources && k !in t.sources :: k == e.key && t'.sources[k] == e.source
    ensures e.key in t'.sources && t'.sources[e.key] == e.source
  {
    ObserveOnlyAdds(t.sources, t.links.Keys, e, b);
  }

  lemma LinkAddedLinks(t: Tables, t': Tables, e: Event, b: Binding)
    requires LinksOk(t) && LinkAdded(t, t', e, b) && ValidEvent(e) && ValidBinding(e, b)
    ensures LinksOk(t')
  {
    LinkAddedExtends(t, t', e, b);
    ObserveOnlyAdds(t.sources, t.links.Keys, e, b);
    forall l | l in t'.links ensures LinkOk(t', l) && t'.links[l] < t'.now {
      if l in t.links {
        assert LinkOk(t, l);
      } else {
        assert SourceOf(l.group, l.source) == e.key;
      }
    }
  }

  lemma LinkAddedActs(t: Tables, t': Tables, e: Event, b: Binding)
    requires BeforeActs(t) && LinkAdded(t, t', e, b)
    requires forall d | d in t.deliveries :: DeliveryOk(t, d)
    ensures BeforeActs(t')
  {
    LinkAddedExtends(t, t', e, b);
    forall d, l | d in t'.deliveries && l in t'.links && l.role == AgentAct && l.group.run == t'.deliveries[d].run
      ensures t'.deliveries[d].at < t'.links[l]
    {
      assert DeliveryOk(t, d);
    }
  }

  /** An intake that adds a link and any new Outcome rows that are well formed. */
  lemma LinkAddedKeeps(t: Tables, t': Tables, e: Event, b: Binding)
    requires Inv(t) && LinkAdded(t, t', e, b) && ValidEvent(e) && ValidBinding(e, b)
    requires forall o | o in t'.outcomes && o !in t.outcomes :: OutcomeOk(t', o)
    ensures Inv(t') && Extends(t, t')
  {
    LinkAddedExtends(t, t', e, b);
    LinkAddedIntake(t, t', e, b);
    SameMemoryKeeps(t, t');
  }

  lemma LinkAddedIntake(t: Tables, t': Tables, e: Event, b: Binding)
    requires IntakeOk(t) && LinkAdded(t, t', e, b) && ValidEvent(e) && ValidBinding(e, b) && Extends(t, t')
    requires forall o | o in t'.outcomes && o !in t.outcomes :: OutcomeOk(t', o)
    ensures IntakeOk(t')
  {
    LinkAddedLinks(t, t', e, b);
    LinkAddedActs(t, t', e, b);
    RowsGrow(t, t');
  }

  lemma RowsGrow(t: Tables, t': Tables)
    requires IntakeOk(t) && Extends(t, t')
    ensures forall run | run in t.contexts :: run in t'.contexts && ContextOk(t', run) && ShownOk(t', run)
    ensures forall d | d in t.deliveries :: d in t'.deliveries && DeliveryOk(t', d)
    ensures forall o | o in t.outcomes :: o in t'.outcomes && OutcomeOk(t', o)
  {
    forall run | run in t.contexts ensures run in t'.contexts && ContextOk(t', run) && ShownOk(t', run) {
      ContextGrows(t, t', run);
    }
    forall d | d in t.deliveries ensures d in t'.deliveries && DeliveryOk(t', d) {
      assert DeliveryOk(t, d);
    }
    forall o | o in t.outcomes ensures o in t'.outcomes && OutcomeOk(t', o) {
      OutcomeGrows(t, t', o);
    }
  }

  lemma ObserveKeeps(t: Tables, e: Event, b: Binding)
    requires Inv(t) && ObserveTx(t, e, b).Some?
    ensures Inv(ObserveTx(t, e, b).value) && Extends(t, ObserveTx(t, e, b).value)
  {
    LinkAddedKeeps(t, ObserveTx(t, e, b).value, e, b);
  }

  lemma OutcomeKeeps(t: Tables, key: Ref, e: Event, run: Ref, group: Ref, deliveries: set<DeliveryKey>, related: set<Ref>)
    requires Inv(t) && OutcomeTx(t, key, e, run, group, deliveries, related).Some?
    ensures var t' := OutcomeTx(t, key, e, run, group, deliveries, related).value;
            Inv(t') && Extends(t, t')
  {
    var b := Binding(run, group, OutcomeRole);
    var t' := OutcomeFacts(t, key, e, run, group, deliveries, related);
    LinkAddedExtends(t, t', e, b);
    NewOutcomeOk(t, t', OutcomeKey(GroupOf(e, b), e.key.ref, key));
    LinkAddedKeeps(t, t', e, b);
  }

  lemma OutcomeFacts(t: Tables, key: Ref, e: Event, run: Ref, group: Ref, deliveries: set<DeliveryKey>, related: set<Ref>) returns (t': Tables)
    requires OutcomeTx(t, key, e, run, group, deliveries, related).Some?
    ensures OutcomeTx(t, key, e, run, group, deliveries, related) == Some(t')
    ensures var b := Binding(run, group, OutcomeRole);
            var o := OutcomeKey(GroupOf(e, b), e.key.ref, key);
            && ValidEvent(e) && ValidBinding(e, b) && LinkAdded(t, t', e, b) && BindingsOk(t, o.group, deliveries, related)
            && t'.outcomes == t.outcomes[o := OutcomeRow(deliveries, related, t.now)] && Link(o.group, o.source, OutcomeRole) in t'.links
  {
    t' := OutcomeTx(t, key, e, run, group, deliveries, related).value;
    assert OutcomeKey(GroupOf(e, Binding(run, group, OutcomeRole)), e.key.ref, key) !in t.outcomes;
  }

  lemma NewOutcomeOk(t: Tables, t': Tables, o: OutcomeKey)
    requires IntakeOk(t) && IntakeGrows(t, t') && o in t'.outcomes && t'.outcomes[o].at == t.now && t'.now == t.now + 1
    requires BindingsOk(t, o.group, t'.outcomes[o].deliveries, t'.outcomes[o].related)
    requires Link(o.group, o.source, OutcomeRole) in t'.links
    ensures OutcomeOk(t', o)
  {
    var row := t'.outcomes[o];
    forall d | d in row.deliveries ensures d in t'.deliveries && t'.deliveries[d].run == o.group.run && t'.deliveries[d].at < row.at {
      assert DeliveryOk(t, d);
    }
    if row.deliveries != {} {
      var r :| r in row.related && Link(o.group, r, AgentAct) in t.links;
      assert LinkOk(t, Link(o.group, r, AgentAct));
      assert t'.links[Link(o.group, r, AgentAct)] < row.at;
    }
  }

  /* ---- contexts and deliveries ---- */

  /** Transactions that add no link and whose new rows are well formed. */
  ghost predicate QuietRows(t: Tables, t': Tables) {
    && t'.links == t.links && t'.sources == t.sources && t'.outcomes == t.outcomes && SameMemory(t, t')
    && BeforeActs(t') && t'.shown.Keys == t'.contexts.Keys
    && (forall run | run in t'.contexts && run !in t.contexts :: ContextOk(t', run) && ShownOk(t', run))
    && (forall d | d in t'.deliveries && d !in t.deliveries :: DeliveryOk(t', d))
  }

  ghost predicate Quiet(t: Tables, t': Tables) {
    Extends(t, t') && QuietRows(t, t')
  }

  lemma QuietKeeps(t: Tables, t': Tables)
    requires Inv(t) && Quiet(t, t')
    ensures Inv(t')
  {
    SameMemoryKeeps(t, t');
    RowsGrow(t, t');
    forall l | l in t'.links ensures LinkOk(t', l) && t'.links[l] < t'.now {
      assert LinkOk(t, l);
    }
  }

  lemma SelectFacts(t: Tables, r: SelectRequest, picks: seq<Pick>, evidence: seq<Exhibit>) returns (t': Tables)
    requires SelectTx(t, r, picks, evidence).Some?
    ensures SelectTx(t, r, picks, evidence) == Some(t') && r.run !in t.contexts && Selectable(t, r, picks, evidence)
    ensures t' == t.(contexts := t.contexts[r.run := ContextRow(r, Rows(picks), evidence, t.now)],
                     shown := t.shown[r.run := BuildContext(r, picks, evidence)], now := t.now + 1)
  {
    t' := SelectTx(t, r, picks, evidence).value;
  }

  lemma SelectKeeps(t: Tables, t': Tables, r: SelectRequest, picks: seq<Pick>, evidence: seq<Exhibit>)
    requires IntakeOk(t) && ReceiptsOk(t) && r.run !in t.contexts && Selectable(t, r, picks, evidence)
    requires t' == t.(contexts := t.contexts[r.run := ContextRow(r, Rows(picks), evidence, t.now)],
                      shown := t.shown[r.run := BuildContext(r, picks, evidence)], now := t.now + 1)
    ensures Quiet(t, t')
  {
    SelectedExtends(t, t', r.run);
    SelectedOk(t, t', r, picks, evidence);
    SelectedRows(t, t', r.run);
  }

  lemma SelectedRows(t: Tables, t': Tables, run: Run)
    requires BeforeActs(t) && t.shown.Keys == t.contexts.Keys && run in t'.contexts && run in t'.shown
    requires t' == t.(contexts := t.contexts[run := t'.contexts[run]], shown := t.shown[run := t'.shown[run]], now := t.now + 1)
    requires ContextOk(t', run) && ShownOk(t', run)
    ensures QuietRows(t, t')
  {
  }

  lemma SelectedExtends(t: Tables, t': Tables, run: Run)
    requires run !in t.contexts && t.shown.Keys == t.contexts.Keys && run in t'.contexts && run in t'.shown
    requires t' == t.(contexts := t.contexts[run := t'.contexts[run]], shown := t.shown[run := t'.shown[run]], now := t.now + 1)
    ensures Extends(t, t')
  {
  }

  lemma SelectedOk(t: Tables, t': Tables, r: SelectRequest, picks: seq<Pick>, evidence: seq<Exhibit>)
    requires ReceiptsOk(t) && Selectable(t, r, picks, evidence) && t'.versions == t.versions && t'.now == t.now + 1
    requires r.run in t'.contexts && t'.contexts[r.run] == ContextRow(r, Rows(picks), evidence, t.now)
    requires r.run in t'.shown && t'.shown[r.run] == BuildContext(r, picks, evidence)
    ensures ContextOk(t', r.run) && ShownOk(t', r.run)
  {
    BuiltIsRead(t', picks, false);
    BuiltIsRead(t', picks, true);
  }

  /** What the activations say of a memory is what its row says. */
  lemma {:induction false} BuiltIsRead(t: Tables, picks: seq<Pick>, seeds: bool)
    requires forall i :: 0 <= i < |picks| ==> picks[i].version in t.versions && IsCandidate(t, picks[i])
    ensures forall i :: 0 <= i < |picks| ==> Rows(picks)[i].version in t.versions
    ensures Activated(picks, seeds) == Memories(t, Rows(picks), seeds)
  {
    if picks != [] {
      var n := |picks| - 1;
      BuiltIsRead(t, picks[..n], seeds);
      PickReads(t, picks[n]);
      RowsSnoc(picks);
      MemoriesSnoc(t, Rows(picks), seeds);
    }
  }

  lemma RowsSnoc(picks: seq<Pick>)
    requires picks != []
    ensures var n := |picks| - 1;
            Rows(picks)[..n] == Rows(picks[..n]) && Rows(picks)[n] == Item(picks[n].version, picks[n].query)
  {
  }

  lemma MemoriesSnoc(t: Tables, items: seq<Item>, seeds: bool)
    requires items != [] && forall i :: 0 <= i < |items| ==> items[i].version in t.versions
    ensures var n := |items| - 1;
            Memories(t, items, seeds) ==
            if items[n].version.root.Seed? == seeds then Memories(t, items[..n], seeds) + [ItemMemory(t, items[n].version)]
            else Memories(t, items[..n], seeds)
  {
  }

  lemma PickReads(t: Tables, p: Pick)
    requires p.version in t.versions && IsCandidate(t, p)
    ensures ItemMemory(t, p.version) == Memory(V(p.version), p.text, p.application)
  {
  }

  lemma DeliverKeeps(t: Tables, t': Tables, k: DeliveryKey, row: DeliveryRow)
    requires IntakeOk(t) && k !in t.deliveries && CanDeliver(t, row.run, row.context, row.memories) && row.at == t.now
    requires t' == t.(deliveries := t.deliveries[k := row], now := t.now + 1)
    ensures Quiet(t, t')
  {
    DeliveredExtends(t, t', k);
    assert ContextOk(t, row.run);
    DeliveredActs(t, t', k);
  }

  lemma DeliveredExtends(t: Tables, t': Tables, k: DeliveryKey)
    requires k !in t.deliveries && k in t'.deliveries
    requires t' == t.(deliveries := t.deliveries[k := t'.deliveries[k]], now := t.now + 1)
    ensures Extends(t, t')
  {
  }

  lemma DeliveredActs(t: Tables, t': Tables, k: DeliveryKey)
    requires BeforeActs(t) && t'.links == t.links && k in t'.deliveries && t'.deliveries == t.deliveries[k := t'.deliveries[k]]
    requires !Acted(t, t'.deliveries[k].run)
    ensures BeforeActs(t')
  {
  }

  /** A delivery finds no Episode of its run to enqueue: an Episode would already
      hold an AgentAct. */
  lemma DeliveryFindsNoEpisode(t: Tables, run: Run, context: SelectRequest, memories: set<MemoryRef>, g: Group)
    requires CanDeliver(t, run, context, memories) && g.run == run
    ensures !Materialized(t.links.Keys, g)
  {
    if Materialized(t.links.Keys, g) {
      var _ := MaterializedHasAct(t.links.Keys, g);
    }
  }
}
