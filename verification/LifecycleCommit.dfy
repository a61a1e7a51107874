/** A commit keeps the invariant change by change, and cannot abort. */
module LifecycleCommit {
  import opened Refs
  import opened Causal
  import opened LifecycleModel
  import opened LifecycleSafety
  import opened LifecycleIntake

  /** Applying changes touches only versions and basis links. */
  predicate SameIntake(t: Tables, t': Tables) {
    var whole :=
      && t'.sources == t.sources && t'.links == t.links && t'.contexts == t.contexts && t'.deliveries == t.deliveries
      && t'.outcomes == t.outcomes && t'.receipts == t.receipts && t'.returned == t.returned && t'.shown == t.shown && t'.now == t.now;
    whole
  }

  ghost predicate MemoryGrowth(t: Tables, t': Tables) {
    SameIntake(t, t') && VersionsGrow(t.versions, t'.versions) && BasisGrows(t, t')
  }

  lemma GrowthExtends(t: Tables, t': Tables)
    requires MemoryGrowth(t, t')
    ensures Extends(t, t')
  {
  }

  lemma OldRows(t: Tables, t': Tables)
    requires MemoryOk(t) && MemoryGrowth(t, t')
    ensures forall b | b in t.basis :: BasisOk(t', b)
    ensures forall b | b in t.outcomeBasis :: OutcomeBasisOk(t', b)
    ensures forall v | v in t.versions && v.root.Seed? && v.number == 1 :: Formed(t', v)
  {
    GrowthExtends(t, t');
    forall b | b in t.basis ensures BasisOk(t', b) {
      BasisOkGrows(t, t', b);
    }
    forall b | b in t.outcomeBasis ensures OutcomeBasisOk(t', b) {
      OutcomeBasisOkGrows(t, t', b);
    }
    forall v | v in t.versions && v.root.Seed? && v.number == 1 ensures Formed(t', v) {
      FormedGrows(t, t', v);
    }
  }

  ghost predicate NewRowsOk(t: Tables, t': Tables) {
    && (forall b | b in t'.basis && b !in t.basis :: BasisOk(t', b))
    && (forall b | b in t'.outcomeBasis && b !in t.outcomeBasis :: OutcomeBasisOk(t', b))
    && (forall v | v in t'.versions && v !in t.versions && v.root.Seed? && v.number == 1 :: Formed(t', v))
    && (forall v | v in t'.versions && v !in t.versions :: t'.versions[v].at <= t'.now)
  }

  lemma MemoryFrom(t: Tables, t': Tables)
    requires MemoryOk(t) && MemoryGrowth(t, t') && NewRowsOk(t, t')
    requires StoreOk(t'.versions) && TextsOk(t'.versions) && FeedOnce(t'.basis)
    ensures MemoryOk(t')
  {
    OldRows(t, t');
    forall v | v in t'.versions ensures t'.versions[v].at <= t'.now {
      if v in t.versions {
        assert SameRow(t.versions[v], t'.versions[v]);
      }
    }
  }

  /* ---- the version store ---- */

  lemma FormStore(versions: map<Version, VersionRow>, v: Version, row: VersionRow)
    requires StoreOk(versions) && v !in versions && v.number == 1 && row.active && row.job == v.root.job && row.text == v.root.text
    requires v.root.Recollection? ==> row.application == v.root.application
    ensures StoreOk(versions[v := row]) && VersionsGrow(versions, versions[v := row])
  {
    var versions' := versions[v := row];
    forall u | u in versions' ensures Stored(versions', u) {
      if u in versions {
        assert Stored(versions, u) && Next(u) != v;
      } else {
        assert Next(v) in versions ==> Stored(versions, Next(v));
      }
    }
  }

  lemma FormTexts(t: Tables, v: Version, row: VersionRow)
    requires TextsOk(t.versions) && v !in t.versions && row.active
    requires !TextTaken(t, v.root.owner, v.root.Seed?, row.application, row.text, {})
    ensures TextsOk(t.versions[v := row])
  {
  }

  function Revised(versions: map<Version, VersionRow>, v: Version, row: VersionRow): map<Version, VersionRow>
    requires v in versions
  {
    versions[v := versions[v].(active := false)][Next(v) := row]
  }

  lemma ReviseStore(versions: map<Version, VersionRow>, v: Version, row: VersionRow)
    requires StoreOk(versions) && v in versions && versions[v].active && row.active && versions[v].at < row.at
    ensures Next(v) !in versions
    ensures StoreOk(Revised(versions, v, row)) && VersionsGrow(versions, Revised(versions, v, row))
  {
    var versions' := Revised(versions, v, row);
    assert Stored(versions, v);
    assert Next(Next(v)) in versions ==> Stored(versions, Next(Next(v)));
    forall u | u in versions' ensures Stored(versions', u) {
      if u in versions && u != v {
        ReviseOther(versions, v, row, u);
      }
    }
  }

  lemma ReviseOther(versions: map<Version, VersionRow>, v: Version, row: VersionRow, u: Version)
    requires v in versions && u in versions && u != v && Stored(versions, u) && Next(v) !in versions
    ensures Stored(Revised(versions, v, row), u)
  {
    assert Next(u) != Next(v);
  }

  lemma ReviseTexts(t: Tables, v: Version, row: VersionRow)
    requires TextsOk(t.versions) && v in t.versions && Next(v) !in t.versions
    requires row.application == t.versions[v].application
    requires !TextTaken(t, v.root.owner, v.root.Seed?, row.application, row.text, {v})
    ensures TextsOk(Revised(t.versions, v, row))
  {
  }

  /* ---- the three ways tables change ---- */

  lemma FormKeeps(t: Tables, t': Tables, v: Version, row: VersionRow, eps: seq<Group>, outs: seq<OutcomeKey>)
    requires MemoryOk(t) && v !in t.versions && v.number == 1 && row.active && row.job == v.root.job && row.text == v.root.text
    requires v.root.Recollection? ==> row.application == v.root.application
    requires !TextTaken(t, v.root.owner, v.root.Seed?, row.application, row.text, {})
    requires t' == t.(versions := t.versions[v := row], basis := t.basis + Links(v, eps, Formation),
                      outcomeBasis := t.outcomeBasis + OutcomeLinks(v, outs, Formation))
    requires NewRowsOk(t, t')
    ensures MemoryOk(t') && MemoryGrowth(t, t')
  {
    FormStore(t.versions, v, row);
    FormTexts(t, v, row);
    FormFeeds(t.basis, Links(v, eps, Formation));
    MemoryFrom(t, t');
  }

  lemma FormFeeds(basis: set<Basis>, more: set<Basis>)
    requires FeedOnce(basis) && forall b | b in more :: b.role !in {Reenactment, Inhibition}
    ensures FeedOnce(basis + more)
  {
  }

  lemma ReviseKeeps(t: Tables, t': Tables, v: Version, row: VersionRow, eps: seq<Group>, outs: seq<OutcomeKey>)
    requires MemoryOk(t) && v in t.versions && t.versions[v].active && row.active && t.versions[v].at < row.at
    requires row.application == t.versions[v].application
    requires !TextTaken(t, v.root.owner, v.root.Seed?, row.application, row.text, {v})
    requires t' == t.(versions := Revised(t.versions, v, row), basis := t.basis + Links(Next(v), eps, Revision),
                      outcomeBasis := t.outcomeBasis + OutcomeLinks(Next(v), outs, Revision))
    requires NewRowsOk(t, t')
    ensures MemoryOk(t') && MemoryGrowth(t, t')
  {
    ReviseStore(t.versions, v, row);
    ReviseTexts(t, v, row);
    FormFeeds(t.basis, Links(Next(v), eps, Revision));
    MemoryFrom(t, t');
  }

  /** More basis links of a version that exists. */
  lemma AddRowsKeeps(t: Tables, t': Tables, more: set<Basis>, outs: set<OutcomeBasis>)
    requires MemoryOk(t) && t' == t.(basis := t.basis + more, outcomeBasis := t.outcomeBasis + outs)
    requires forall b | b in more :: b.role != Formation && b.role != Revision
    requires forall b | b in outs :: b.role != Formation && b.role != Revision
    requires FeedOnce(t'.basis) && NewRowsOk(t, t')
    ensures MemoryOk(t') && MemoryGrowth(t, t')
  {
    AddRowsGrow(t, t', more, outs);
    MemoryFrom(t, t');
  }

  lemma AddRowsGrow(t: Tables, t': Tables, more: set<Basis>, outs: set<OutcomeBasis>)
    requires t' == t.(basis := t.basis + more, outcomeBasis := t.outcomeBasis + outs)
    requires forall b | b in more :: b.role != Formation && b.role != Revision
    requires forall b | b in outs :: b.role != Formation && b.role != Revision
    ensures MemoryGrowth(t, t')
  {
  }

  /** More basis links and nothing else. */
  lemma AddBasisKeeps(t: Tables, t': Tables, more: set<Basis>)
    requires MemoryOk(t) && t' == t.(basis := t.basis + more) && FeedOnce(t'.basis) && NewRowsOk(t, t')
    requires forall b | b in more :: b.role != Formation && b.role != Revision
    ensures MemoryOk(t') && MemoryGrowth(t, t')
  {
    assert t.outcomeBasis + {} == t.outcomeBasis;
    AddRowsKeeps(t, t', more, {});
  }

  lemma NewBasisOk(t: Tables, t': Tables)
    requires t'.versions == t.versions && t'.outcomeBasis == t.outcomeBasis
    requires forall b | b in t'.basis && b !in t.basis :: BasisOk(t', b)
    ensures NewRowsOk(t, t')
  {
  }

  /* ---- the middle of a batch ---- */

  lemma GrowthAll(a: Tables, b: Tables, c: Tables)
    requires MemoryGrowth(a, b) && MemoryGrowth(b, c)
    ensures MemoryGrowth(a, c)
  {
    forall v | v in a.versions ensures v in c.versions && SameRow(a.versions[v], c.versions[v]) {
      assert SameRow(a.versions[v], b.versions[v]) && SameRow(b.versions[v], c.versions[v]);
    }
  }

  predicate SameVersion(t0: Tables, t: Tables, v: Version)
    requires v in t0.versions
  {
    && v in t.versions && t.versions[v] == t0.versions[v]
    && (forall b | b in t.basis && b.version == v :: b in t0.basis)
    && (forall b | b in t.outcomeBasis && b.version == v :: b in t0.outcomeBasis)
  }

  predicate Untouched(t0: Tables, t: Tables, touched: set<Version>) {
    forall v {:trigger SameVersion(t0, t, v)} | v in t0.versions && v !in touched :: SameVersion(t0, t, v)
  }

  function NewVersions(t0: Tables, t: Tables): Receipt {
    Receipt(set v | v in t.versions && v !in t0.versions && v.root.Recollection?,
            set v | v in t.versions && v !in t0.versions && v.root.Seed?)
  }

  /** Everything the batch created carries its job and tenant and is active. */
  predicate BatchOk(t0: Tables, w: Window, a: Applied)
    requires w.episodes != []
  {
    && a.receipt == NewVersions(t0, a.tables)
    && forall v | v in a.tables.versions && v !in t0.versions ::
         a.tables.versions[v].active && a.tables.versions[v].job == w.job && v.root.owner.tenant == OwnerOf(w).tenant
  }

  ghost predicate Mid(t0: Tables, w: Window, a: Applied, touched: set<Version>)
    requires w.episodes != []
  {
    var whole := MemoryOk(a.tables) && MemoryGrowth(t0, a.tables) && Untouched(t0, a.tables, touched) && BatchOk(t0, w, a);
    whole
  }

  lemma MidStart(t0: Tables, w: Window)
    requires MemoryOk(t0) && w.episodes != []
    ensures Mid(t0, w, Applied(t0, Receipt({}, {})), {})
  {
    assert forall v | v in t0.versions :: SameVersion(t0, t0, v);
  }

  lemma UntouchedStep(t0: Tables, t: Tables, t': Tables, touched: set<Version>, v: Version, made: Version)
    requires Untouched(t0, t, touched) && made !in t0.versions
    requires forall u | u in t.versions && u != v :: u in t'.versions && t'.versions[u] == t.versions[u]
    requires forall b | b in t'.basis && b !in t.basis :: b.version == v || b.version == made
    requires forall b | b in t'.outcomeBasis && b !in t.outcomeBasis :: b.version == v || b.version == made
    ensures Untouched(t0, t', touched + {v})
  {
    forall u | u in t0.versions && u !in touched + {v} ensures SameVersion(t0, t', u) {
      assert SameVersion(t0, t, u);
    }
  }

  lemma BatchStep(t0: Tables, w: Window, a: Applied, t': Tables, v: Version)
    requires w.episodes != [] && BatchOk(t0, w, a) && v !in t0.versions && v !in a.tables.versions
    requires t'.versions.Keys == a.tables.versions.Keys + {v}
    requires forall u | u in a.tables.versions && u !in t0.versions :: t'.versions[u] == a.tables.versions[u]
    requires t'.versions[v].active && t'.versions[v].job == w.job && v.root.owner.tenant == OwnerOf(w).tenant
    ensures BatchOk(t0, w, Applied(t', Note(a.receipt, v)))
  {
    assert NewVersions(t0, t') == Note(a.receipt, v);
  }

  lemma MidForm(t0: Tables, w: Window, a: Applied, touched: set<Version>, t': Tables, v: Version)
    requires w.episodes != [] && Mid(t0, w, a, touched) && MemoryOk(t') && MemoryGrowth(a.tables, t')
    requires v !in a.tables.versions && t'.versions.Keys == a.tables.versions.Keys + {v}
    requires forall u | u in a.tables.versions :: t'.versions[u] == a.tables.versions[u]
    requires forall b | b in t'.basis && b !in a.tables.basis :: b.version == v
    requires forall b | b in t'.outcomeBasis && b !in a.tables.outcomeBasis :: b.version == v
    requires t'.versions[v].active && t'.versions[v].job == w.job && v.root.owner.tenant == OwnerOf(w).tenant
    ensures Mid(t0, w, Applied(t', Note(a.receipt, v)), touched)
  {
    GrowthAll(t0, a.tables, t');
    UntouchedStep(t0, a.tables, t', touched, v, v);
    BatchStep(t0, w, a, t', v);
  }

  lemma MidRevise(t0: Tables, w: Window, a: Applied, touched: set<Version>, t': Tables, v: Version)
    requires w.episodes != [] && Mid(t0, w, a, touched) && MemoryOk(t') && MemoryGrowth(a.tables, t')
    requires v in t0.versions && Next(v) !in a.tables.versions && t'.versions.Keys == a.tables.versions.Keys + {Next(v)}
    requires forall u | u in a.tables.versions && u != v :: t'.versions[u] == a.tables.versions[u]
    requires forall b | b in t'.basis && b !in a.tables.basis :: b.version == Next(v)
    requires forall b | b in t'.outcomeBasis && b !in a.tables.outcomeBasis :: b.version == Next(v)
    requires t'.versions[Next(v)].active && t'.versions[Next(v)].job == w.job && v.root.owner.tenant == OwnerOf(w).tenant
    ensures Mid(t0, w, Applied(t', Note(a.receipt, Next(v))), touched + {v})
  {
    GrowthAll(t0, a.tables, t');
    UntouchedStep(t0, a.tables, t', touched, v, Next(v));
    BatchStep(t0, w, a, t', Next(v));
  }

  lemma MidRows(t0: Tables, w: Window, a: Applied, touched: set<Version>, t': Tables, v: Version)
    requires w.episodes != [] && Mid(t0, w, a, touched) && MemoryOk(t') && MemoryGrowth(a.tables, t')
    requires v in t0.versions && t'.versions == a.tables.versions
    requires forall b | b in t'.basis && b !in a.tables.basis :: b.version == v
    requires forall b | b in t'.outcomeBasis && b !in a.tables.outcomeBasis :: b.version == v
    ensures Mid(t0, w, Applied(t', a.receipt), touched + {v})
  {
    GrowthAll(t0, a.tables, t');
    forall u | u in t0.versions && u !in touched + {v} ensures SameVersion(t0, t', u) {
      assert SameVersion(t0, a.tables, u);
    }
  }

  lemma MidMore(t0: Tables, w: Window, a: Applied, touched: set<Version>, more: set<Version>)
    requires w.episodes != [] && Mid(t0, w, a, touched) && touched <= more
    ensures Mid(t0, w, a, more)
  {
  }

  /* ---- what the desk holds ---- */

  ghost predicate DeskOk(t: Tables, d: Desk) {
    && WindowOk(t, d.window) && OfferOk(t, d.window, d.offer)
    && LoadFeedback(t, d.window, d.offer.hints) == Some(d.targets) && d.recalled == LoadRecalled(t, d.offer.recalled)
    && KeyOf(d.window) !in t.receipts
  }

  lemma TargetFacts(t: Tables, d: Desk, v: Version)
    requires DeskOk(t, d) && v in d.targets
    ensures ActiveSeed(t, v) && v.root.owner.tenant == OwnerOf(d.window).tenant && AnchorsLoad(t, v)
    ensures d.targets[v] == LoadTarget(t, d.window, d.offer.hints, v)
  {
    assert v in TargetVersions(t, d.window, d.offer.hints);
    if v !in d.offer.hints {
      var g :| g in d.window.episodes && v.root.owner.tenant == g.run.owner.tenant && ChainReceipts(t, v, g) != {};
      assert g.run.owner == OwnerOf(d.window);
    }
  }

  lemma RecalledFacts(t: Tables, d: Desk, v: Version)
    requires DeskOk(t, d) && v in d.recalled
    ensures v in t.versions && v.root.Recollection? && t.versions[v].active && v.root.owner == OwnerOf(d.window)
    ensures d.recalled[v].text == t.versions[v].text && d.recalled[v].application == t.versions[v].application
  {
  }

  lemma CitableFacts(t: Tables, d: Desk, g: Group)
    requires DeskOk(t, d) && g in Citable(d.window, d.offer)
    ensures FormationRoles(t, g) && g.run.owner == OwnerOf(d.window)
  {
    if g !in d.offer.related && g !in d.window.episodes {
      var p :| p in d.offer.focus && p.episode == g;
    }
  }

  lemma CitableOutcomeFacts(t: Tables, d: Desk, o: OutcomeKey)
    requires DeskOk(t, d) && o in CitableOutcomes(d.window, d.offer)
    ensures o in t.outcomes
  {
    if o !in d.window.outcomes {
      var p :| p in d.offer.focus && p.outcome == o;
      assert UniqueFormationOutcome(t, p.episode, o);
    }
  }

  lemma RolesMeanActed(t: Tables, g: Group)
    requires LinksOk(t) && FormationRoles(t, g)
    ensures ActedBefore(t, g, t.now)
  {
    RolesMaterialize(t, g);
    var l := MaterializedHasAct(t.links.Keys, g);
    assert LinkOk(t, l) && t.links[l] < t.now;
  }

  lemma {:induction false} CitedContents(refs: seq<MemoryRef>)
    ensures forall g :: g in CitedEpisodes(refs) <==> E(g) in refs
    ensures forall o :: o in CitedOutcomes(refs) <==> O(o) in refs
  {
    if refs != [] {
      var n := |refs| - 1;
      CitedContents(refs[..n]);
      assert refs == refs[..n] + [refs[n]];
    }
  }
}
