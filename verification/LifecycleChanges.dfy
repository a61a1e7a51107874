/** Each kind of change, applied in the middle of a valid batch, succeeds and
    keeps the invariant. */
module LifecycleChanges {
  import opened Refs
  import opened Causal
  import opened LifecycleModel
  import opened LifecycleSafety
  import opened LifecycleIntake
  import opened LifecycleCommit

  /** The desk was loaded from tables that keep the invariant. */
  ghost predicate Begun(t0: Tables, d: Desk) {
    var whole := LinksOk(t0) && ReceiptsOk(t0) && MemoryOk(t0) && DeskOk(t0, d);
    whole
  }

  /** The batch is being applied to tables that started as `t0`. */
  ghost predicate Batch(t0: Tables, d: Desk, a: Applied, touched: set<Version>) {
    Begun(t0, d) && Mid(t0, d.window, a, touched)
  }

  /* ---- formation ---- */

  /** A first version already present was formed in this very batch, so its text
      is taken: the insert of a formation never collides. */
  lemma FormationNeverCollides(t0: Tables, d: Desk, a: Applied, touched: set<Version>, root: Root, application: Application)
    requires Batch(t0, d, a, touched) && root.job == d.window.job && root.owner == OwnerOf(d.window)
    requires root.Recollection? ==> application == root.application
    requires !TextTaken(a.tables, root.owner, root.Seed?, application, root.text, {})
    ensures Version(root, 1) !in a.tables.versions
  {
    var v := Version(root, 1);
    assert v in a.tables.versions ==> Stored(a.tables.versions, v);
  }

  lemma NoRowsYet(t: Tables, v: Version)
    requires MemoryOk(t) && v !in t.versions
    ensures forall b | b in t.basis :: b.version != v
    ensures forall b | b in t.outcomeBasis :: b.version != v
  {
    forall b | b in t.basis ensures b.version != v {
      assert BasisOk(t, b);
    }
    forall b | b in t.outcomeBasis ensures b.version != v {
      assert OutcomeBasisOk(t, b);
    }
  }

  function AfterForm(t: Tables, root: Root, text: string, application: Application, outs: seq<OutcomeKey>): Tables {
    t.(versions := t.versions[Version(root, 1) := VersionRow(text, application, true, root.job, t.now)],
       basis := t.basis + Links(Version(root, 1), root.episodes, Formation),
       outcomeBasis := t.outcomeBasis + OutcomeLinks(Version(root, 1), outs, Formation))
  }

  lemma FormationRow(t0: Tables, t': Tables, v: Version, g: Group)
    requires LinksOk(t0) && FormationRoles(t0, g) && SameIntake(t0, t') && v in t'.versions && v.number == 1 && t'.versions[v].at == t0.now
    ensures BasisOk(t', Basis(v, g, Formation))
  {
    FormationRolesGrow(t0, t', g);
    RolesMeanActed(t0, g);
    ActedBeforeGrows(t0, t', g, t0.now);
  }

  ghost predicate RootOk(t0: Tables, d: Desk, root: Root, outs: seq<OutcomeKey>)
    requires d.window.episodes != []
  {
    var whole :=
      && root.job == d.window.job && root.owner == OwnerOf(d.window)
      && (forall g | g in root.episodes :: FormationRoles(t0, g) && g.run.owner == OwnerOf(d.window))
      && (root.Recollection? ==> outs == [])
      && (root.Seed? ==>
            && outs == root.outcomes
            && (forall o | o in outs :: o in t0.outcomes && NonAgentOutcome(t0, o) && o.group in root.episodes)
            && Eligible(t0, root.episodes, outs));
    whole
  }

  lemma FormedFacts(t: Tables, t': Tables, root: Root, text: string, application: Application, outs: seq<OutcomeKey>)
    requires root.Seed? && outs == root.outcomes && t' == AfterForm(t, root, text, application, outs)
    requires forall g | g in root.episodes :: g.run.owner == root.owner
    requires forall b | b in t.basis :: b.version != Version(root, 1)
    requires forall b | b in t.outcomeBasis :: b.version != Version(root, 1)
    ensures FormedFrom(t', Version(root, 1))
  {
    FormedSets(t, t', root, text, application, outs);
    forall i | 0 <= i < |root.episodes| ensures root.episodes[i].run.owner == root.owner {
      assert root.episodes[i] in root.episodes;
    }
  }

  lemma FormedSets(t: Tables, t': Tables, root: Root, text: string, application: Application, outs: seq<OutcomeKey>)
    requires t' == AfterForm(t, root, text, application, outs)
    requires forall b | b in t.basis :: b.version != Version(root, 1)
    requires forall b | b in t.outcomeBasis :: b.version != Version(root, 1)
    ensures BasisIn(t', Version(root, 1), {Formation}) == (set g | g in root.episodes)
    ensures OutcomesIn(t', Version(root, 1), Formation) == (set o | o in outs)
  {
    forall g | g in root.episodes ensures g in BasisIn(t', Version(root, 1), {Formation}) {
      assert Basis(Version(root, 1), g, Formation) in t'.basis;
    }
    forall o | o in outs ensures o in OutcomesIn(t', Version(root, 1), Formation) {
      assert OutcomeBasis(Version(root, 1), o, Formation) in t'.outcomeBasis;
    }
  }

  lemma FormBasisRows(t0: Tables, t: Tables, t': Tables, v: Version, eps: seq<Group>)
    requires LinksOk(t0) && SameIntake(t0, t') && v in t'.versions && v.number == 1 && t'.versions[v].at == t0.now
    requires t'.basis == t.basis + Links(v, eps, Formation) && forall g | g in eps :: FormationRoles(t0, g)
    ensures forall b | b in t'.basis && b !in t.basis :: BasisOk(t', b)
  {
    forall b | b in t'.basis && b !in t.basis ensures BasisOk(t', b) {
      FormationRow(t0, t', v, b.episode);
    }
  }

  lemma FormOutcomeRows(t0: Tables, t: Tables, t': Tables, v: Version, eps: seq<Group>, outs: seq<OutcomeKey>)
    requires SameIntake(t0, t') && v in t'.versions && (v.root.Seed? || outs == [])
    requires t'.basis == t.basis + Links(v, eps, Formation) && t'.outcomeBasis == t.outcomeBasis + OutcomeLinks(v, outs, Formation)
    requires forall o | o in outs :: o in t0.outcomes && NonAgentOutcome(t0, o) && o.group in eps
    ensures forall b | b in t'.outcomeBasis && b !in t.outcomeBasis :: OutcomeBasisOk(t', b)
  {
    forall b | b in t'.outcomeBasis && b !in t.outcomeBasis ensures OutcomeBasisOk(t', b) {
      assert Basis(v, b.outcome.group, Formation) in t'.basis;
    }
  }

  lemma FormRows(t0: Tables, d: Desk, t: Tables, t': Tables, root: Root, text: string, application: Application, outs: seq<OutcomeKey>)
    requires LinksOk(t0) && d.window.episodes != [] && RootOk(t0, d, root, outs)
    requires MemoryOk(t) && SameIntake(t0, t) && Version(root, 1) !in t.versions && t' == AfterForm(t, root, text, application, outs)
    ensures NewRowsOk(t, t')
  {
    FormBasisRows(t0, t, t', Version(root, 1), root.episodes);
    FormOutcomeRows(t0, t, t', Version(root, 1), root.episodes, outs);
    if root.Seed? {
      NoRowsYet(t, Version(root, 1));
      FormSeedRow(t0, t, t', root, text, application, outs);
    }
  }

  lemma EligibleStays(t: Tables, t': Tables, eps: seq<Group>, outs: seq<OutcomeKey>)
    requires SameIntake(t, t') && Eligible(t, eps, outs)
    ensures Eligible(t', eps, outs)
  {
    EligibleGrows(t, t', eps, outs);
  }

  lemma FormSeedRow(t0: Tables, t: Tables, t': Tables, root: Root, text: string, application: Application, outs: seq<OutcomeKey>)
    requires SameIntake(t0, t') && root.Seed? && outs == root.outcomes && Eligible(t0, root.episodes, outs)
    requires forall g | g in root.episodes :: g.run.owner == root.owner
    requires forall b | b in t.basis :: b.version != Version(root, 1)
    requires forall b | b in t.outcomeBasis :: b.version != Version(root, 1)
    requires t' == AfterForm(t, root, text, application, outs)
    ensures Formed(t', Version(root, 1))
  {
    EligibleStays(t0, t', root.episodes, outs);
    FormedFacts(t, t', root, text, application, outs);
  }

  lemma FormKept(t0: Tables, d: Desk, a: Applied, touched: set<Version>, root: Root, application: Application, outs: seq<OutcomeKey>)
    returns (r: Applied)
    requires Batch(t0, d, a, touched) && RootOk(t0, d, root, outs)
    requires root.Recollection? ==> application == root.application
    requires !TextTaken(a.tables, root.owner, root.Seed?, application, root.text, {})
    ensures Form(a, root, root.text, application, outs) == Some(r) && Mid(t0, d.window, r, touched)
  {
    FormationNeverCollides(t0, d, a, touched, root, application);
    var t' := AfterForm(a.tables, root, root.text, application, outs);
    FormRows(t0, d, a.tables, t', root, root.text, application, outs);
    FormMid(t0, d.window, a, touched, root, application, outs);
    r := Applied(t', Note(a.receipt, Version(root, 1)));
  }

  lemma FormMid(t0: Tables, w: Window, a: Applied, touched: set<Version>, root: Root, application: Application, outs: seq<OutcomeKey>)
    requires w.episodes != [] && Mid(t0, w, a, touched) && Version(root, 1) !in a.tables.versions
    requires root.job == w.job && root.owner == OwnerOf(w) && (root.Recollection? ==> application == root.application)
    requires !TextTaken(a.tables, root.owner, root.Seed?, application, root.text, {})
    requires NewRowsOk(a.tables, AfterForm(a.tables, root, root.text, application, outs))
    ensures Mid(t0, w, Applied(AfterForm(a.tables, root, root.text, application, outs), Note(a.receipt, Version(root, 1))), touched)
  {
    var t', v := AfterForm(a.tables, root, root.text, application, outs), Version(root, 1);
    FormedShape(a.tables, t', root, root.text, application, outs);
    FormKeeps(a.tables, t', v, t'.versions[v], root.episodes, outs);
    MidForm(t0, w, a, touched, t', v);
  }

  lemma FormedShape(t: Tables, t': Tables, root: Root, text: string, application: Application, outs: seq<OutcomeKey>)
    requires Version(root, 1) !in t.versions && t' == AfterForm(t, root, text, application, outs)
    ensures t'.versions.Keys == t.versions.Keys + {Version(root, 1)}
    ensures t'.versions[Version(root, 1)] == VersionRow(text, application, true, root.job, t.now)
    ensures forall u | u in t.versions :: t'.versions[u] == t.versions[u]
    ensures forall b | b in t'.basis && b !in t.basis :: b.version == Version(root, 1)
    ensures forall b | b in t'.outcomeBasis && b !in t.outcomeBasis :: b.version == Version(root, 1)
  {
  }

  /* ---- revision ---- */

  function AfterRevise(t: Tables, v: Version, text: string, job: Ref, eps: seq<Group>, outs: seq<OutcomeKey>): Tables
    requires v in t.versions
  {
    t.(versions := Revised(t.versions, v, VersionRow(text, t.versions[v].application, true, job, t.now)),
       basis := t.basis + Links(Next(v), eps, Revision), outcomeBasis := t.outcomeBasis + OutcomeLinks(Next(v), outs, Revision))
  }

  /** A target of the batch that no earlier change touched is still as loaded. */
  lemma StillAsLoaded(t0: Tables, d: Desk, a: Applied, touched: set<Version>, v: Version)
    requires Batch(t0, d, a, touched) && v in t0.versions && v !in touched
    ensures SameVersion(t0, a.tables, v) && t0.versions[v].at < t0.now && SameIntake(t0, a.tables)
  {
  }

  lemma ReviseMid(t0: Tables, w: Window, a: Applied, touched: set<Version>, v: Version, text: string, eps: seq<Group>, outs: seq<OutcomeKey>)
    requires w.episodes != [] && Mid(t0, w, a, touched) && v in t0.versions && v in a.tables.versions && a.tables.versions[v].active
    requires a.tables.versions[v].at < a.tables.now && v.root.owner.tenant == OwnerOf(w).tenant
    requires !TextTaken(a.tables, v.root.owner, v.root.Seed?, a.tables.versions[v].application, text, {v})
    requires NewRowsOk(a.tables, AfterRevise(a.tables, v, text, w.job, eps, outs))
    ensures Mid(t0, w, Applied(AfterRevise(a.tables, v, text, w.job, eps, outs), Note(a.receipt, Next(v))), touched + {v})
  {
    var t' := AfterRevise(a.tables, v, text, w.job, eps, outs);
    assert Stored(a.tables.versions, v);
    RevisedShape(a.tables, t', v, text, w.job, eps, outs);
    ReviseKeeps(a.tables, t', v, t'.versions[Next(v)], eps, outs);
    MidRevise(t0, w, a, touched, t', v);
  }

  lemma RevisedShape(t: Tables, t': Tables, v: Version, text: string, job: Ref, eps: seq<Group>, outs: seq<OutcomeKey>)
    requires v in t.versions && t' == AfterRevise(t, v, text, job, eps, outs)
    ensures t'.versions.Keys == t.versions.Keys + {Next(v)}
    ensures t'.versions[Next(v)] == VersionRow(text, t.versions[v].application, true, job, t.now)
    ensures forall u | u in t.versions && u != v && u != Next(v) :: t'.versions[u] == t.versions[u]
    ensures forall b | b in t'.basis && b !in t.basis :: b.version == Next(v)
    ensures forall b | b in t'.outcomeBasis && b !in t.outcomeBasis :: b.version == Next(v)
  {
  }

  /** The supersede-and-insert of an active version cannot fail. */
  lemma ReviseSucceeds(a: Applied, v: Version, text: string, job: Ref, eps: seq<Group>, outs: seq<OutcomeKey>)
    requires StoreOk(a.tables.versions) && v in a.tables.versions && a.tables.versions[v].active
    ensures Revise(a, v, text, job, eps, outs) == Some(Applied(AfterRevise(a.tables, v, text, job, eps, outs), Note(a.receipt, Next(v))))
  {
    assert Stored(a.tables.versions, v);
  }

  lemma RevisionRow(t0: Tables, t': Tables, v: Version, g: Group)
    requires LinksOk(t0) && FormationRoles(t0, g) && SameIntake(t0, t') && v in t'.versions && t'.versions[v].at == t0.now && v.number >= 2
    requires v.root.Seed? ==> RevisionReason(t', v, g)
    ensures BasisOk(t', Basis(v, g, Revision))
  {
    FormationRolesGrow(t0, t', g);
    RolesMeanActed(t0, g);
    ActedBeforeGrows(t0, t', g, t0.now);
  }

  lemma RevisionRows(t0: Tables, t: Tables, t': Tables, next: Version, eps: seq<Group>)
    requires LinksOk(t0) && SameIntake(t0, t') && next in t'.versions && t'.versions[next].at == t0.now && next.number >= 2
    requires t'.basis == t.basis + Links(next, eps, Revision)
    requires forall g | g in eps :: FormationRoles(t0, g) && (next.root.Seed? ==> RevisionReason(t', next, g))
    ensures forall b | b in t'.basis && b !in t.basis :: BasisOk(t', b)
  {
    forall b | b in t'.basis && b !in t.basis ensures BasisOk(t', b) {
      RevisionRow(t0, t', next, b.episode);
    }
  }

  lemma RevisionOutcomeRows(t0: Tables, t: Tables, t': Tables, v: Version, eps: seq<Group>, outs: seq<OutcomeKey>)
    requires SameIntake(t0, t') && Next(v) in t'.versions && v.number >= 1 && v.root.Seed?
    requires t'.basis == t.basis + Links(Next(v), eps, Revision) && t'.outcomeBasis == t.outcomeBasis + OutcomeLinks(Next(v), outs, Revision)
    requires forall o | o in outs :: Attributed(t0, v, o) && o.group in eps
    ensures forall b | b in t'.outcomeBasis && b !in t.outcomeBasis :: OutcomeBasisOk(t', b)
  {
    forall b | b in t'.outcomeBasis && b !in t.outcomeBasis ensures OutcomeBasisOk(t', b) {
      assert Basis(Next(v), b.outcome.group, Revision) in t'.basis;
      AttributedGrows(t0, t', v, b.outcome);
      assert Prior(Next(v)) == v;
    }
  }

  lemma RevisionSets(t: Tables, t': Tables, v: Version, text: string, job: Ref, eps: seq<Group>, outs: seq<OutcomeKey>)
    requires v in t.versions && t' == AfterRevise(t, v, text, job, eps, outs)
    requires forall b | b in t.basis :: b.version != Next(v)
    requires forall b | b in t.outcomeBasis :: b.version != Next(v)
    ensures BasisIn(t', Next(v), {Revision}) == (set g | g in eps)
    ensures OutcomesIn(t', Next(v), Revision) == (set o | o in outs)
    ensures Anchors(t', v) == Anchors(t, v)
  {
    forall g | g in eps ensures g in BasisIn(t', Next(v), {Revision}) {
      assert Basis(Next(v), g, Revision) in t'.basis;
    }
    forall o | o in outs ensures o in OutcomesIn(t', Next(v), Revision) {
      assert OutcomeBasis(Next(v), o, Revision) in t'.outcomeBasis;
    }
  }

  /** A direct user requirement revises from exactly that Episode. */
  lemma AdaptReason(t0: Tables, t: Tables, t': Tables, v: Version, text: string, job: Ref, g: Group)
    requires v in t.versions && v.number >= 1 && t' == AfterRevise(t, v, text, job, [g], []) && SameIntake(t0, t')
    requires forall b | b in t.basis :: b.version != Next(v)
    requires forall b | b in t.outcomeBasis :: b.version != Next(v)
    requires SituationBy(t0, g, true) && g.run.owner == v.root.owner
    ensures RevisionReason(t', Next(v), g)
  {
    RevisionSets(t, t', v, text, job, [g], []);
    SituationByGrows(t0, t', g, true);
    assert (set x | x in [g]) == {g};
  }

  /** A behavioral revision: each Episode has its Outcome cited or anchored the
      prior version. */
  lemma TextReason(t: Tables, t': Tables, v: Version, text: string, job: Ref, eps: seq<Group>, outs: seq<OutcomeKey>, g: Group)
    requires v in t.versions && v.number >= 1 && t' == AfterRevise(t, v, text, job, eps, outs) && outs != []
    requires forall b | b in t.basis :: b.version != Next(v)
    requires forall b | b in t.outcomeBasis :: b.version != Next(v)
    requires g in Anchors(t, v) || exists o :: o in outs && o.group == g
    ensures RevisionReason(t', Next(v), g)
  {
    RevisionSets(t, t', v, text, job, eps, outs);
    if o :| o in outs && o.group == g {
      assert OutcomeBasis(Next(v), o, Revision) in t'.outcomeBasis;
      assert HasOutcome(t', Next(v), g, Revision);
    } else {
      assert outs[0] in OutcomesIn(t', Next(v), Revision);
      assert Prior(Next(v)) == v;
    }
  }
}
