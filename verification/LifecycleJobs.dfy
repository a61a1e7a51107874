/** The engine as the Job model sees it: its receipt look-ups and its commit are
    those of the lifecycle's consolidation transactions. */
module LifecycleJobs {
  import opened Refs
  import opened Causal
  import opened LifecycleModel
  import opened LifecycleSafety
  import opened LifecycleIntake
  import opened LifecycleTheorems
  import Jobs = JobModel
  import JobWindows

  /** The refs a Job stores for structured identities. */
  datatype Names = Names(episode: Group -> Ref, outcome: OutcomeKey -> Ref)

  ghost predicate Injective(n: Names) {
    (forall a, b :: n.episode(a) == n.episode(b) ==> a == b) && (forall a, b :: n.outcome(a) == n.outcome(b) ==> a == b)
  }

  function EpisodeRefs(n: Names, s: seq<Group>): (r: seq<Ref>)
    ensures |r| == |s| && forall i :: 0 <= i < |s| ==> r[i] == n.episode(s[i])
  {
    seq(|s|, i requires 0 <= i < |s| => n.episode(s[i]))
  }

  function OutcomeRefs(n: Names, s: seq<OutcomeKey>): (r: seq<Ref>)
    ensures |r| == |s| && forall i :: 0 <= i < |s| ==> r[i] == n.outcome(s[i])
  {
    seq(|s|, i requires 0 <= i < |s| => n.outcome(s[i]))
  }

  function EvidenceOf(n: Names, w: Window): JobWindows.Evidence {
    JobWindows.Evidence(EpisodeRefs(n, w.episodes), OutcomeRefs(n, w.outcomes))
  }

  function JobWindow(n: Names, w: Window): Jobs.Window
    requires w.episodes != []
  {
    Jobs.Window(OwnerOf(w), EvidenceOf(n, w))
  }

  lemma EvidenceInjective(n: Names, v: Window, w: Window)
    requires Injective(n) && v.job == w.job && EvidenceOf(n, v) == EvidenceOf(n, w)
    ensures v == w
  {
    var a, b := EvidenceOf(n, v), EvidenceOf(n, w);
    forall i | 0 <= i < |v.episodes| ensures v.episodes[i] == w.episodes[i] {
      assert a.episodes[i] == b.episodes[i];
    }
    forall i | 0 <= i < |v.outcomes| ensures v.outcomes[i] == w.outcomes[i] {
      assert a.outcomes[i] == b.outcomes[i];
    }
  }

  /** Both models hold the same receipt under a key. */
  ghost predicate SameReceipt(n: Names, t: Tables, receipts: map<Jobs.ReceiptKey, Jobs.Window>, key: ReceiptKey) {
    && (key in t.receipts <==> Jobs.ReceiptKey(key.tenant, key.job) in receipts)
    && (key in t.receipts ==>
          && t.receipts[key].episodes != [] && KeyOf(t.receipts[key]) == key
          && receipts[Jobs.ReceiptKey(key.tenant, key.job)] == JobWindow(n, t.receipts[key]))
  }

  ghost predicate SameReceipts(n: Names, t: Tables, receipts: map<Jobs.ReceiptKey, Jobs.Window>) {
    forall key :: SameReceipt(n, t, receipts, key)
  }

  /** The queue knows every Episode under its owner. */
  ghost predicate KnowsEpisodes(n: Names, t: Tables, episodes: map<Ref, Owner>) {
    forall g :: Materialized(t.links.Keys, g) ==> n.episode(g) in episodes && episodes[n.episode(g)] == g.run.owner
  }

  ghost predicate Related(n: Names, t: Tables, s: Jobs.Sys) {
    Injective(n) && SameReceipts(n, t, s.receipts) && KnowsEpisodes(n, t, s.q.episodes)
  }

  /** The processor works on this very window. */
  predicate WorksOn(n: Names, s: Jobs.Sys, pid: nat, w: Window) {
    pid in s.processors && s.processors[pid].job == w.job && s.processors[pid].evidence == EvidenceOf(n, w)
  }

  lemma OwnerAgrees(n: Names, t: Tables, q: Jobs.Queue, w: Window)
    requires KnowsEpisodes(n, t, q.episodes) && WindowOk(t, w)
    ensures Jobs.WindowOwner(q, EvidenceOf(n, w)) == Some(OwnerOf(w))
  {
    var e := EvidenceOf(n, w);
    forall i | 0 <= i < |e.episodes| ensures e.episodes[i] in q.episodes && q.episodes[e.episodes[i]] == OwnerOf(w) {
      RolesMaterialize(t, w.episodes[i]);
    }
  }

  lemma LookUpAgrees(n: Names, t: Tables, s: Jobs.Sys, w: Window)
    requires Injective(n) && SameReceipts(n, t, s.receipts) && w.episodes != []
    ensures Jobs.LookUp(s, w.job, JobWindow(n, w)) ==
            if KeyOf(w) !in t.receipts then Jobs.Absent else if t.receipts[KeyOf(w)] == w then Jobs.Found else Jobs.Conflicting
  {
    assert SameReceipt(n, t, s.receipts, KeyOf(w));
    if KeyOf(w) in t.receipts && JobWindow(n, t.receipts[KeyOf(w)]) == JobWindow(n, w) {
      EvidenceInjective(n, t.receipts[KeyOf(w)], w);
    }
  }

  /** What the engine's first look-up answers is what the Job model's snapshot step
      does with the processor. */
  lemma SnapshotRefines(n: Names, t: Tables, s: Jobs.Sys, pid: nat, w: Window)
    requires Related(n, t, s) && WindowOk(t, w) && WorksOn(n, s, pid, w) && s.processors[pid].Leased?
    ensures Jobs.Enabled(s, Jobs.Snapshot(pid))
    ensures var p := Jobs.Do(s, Jobs.Snapshot(pid)).processors[pid];
            match FirstLook(t, w)
            case None => p.Prepared?
            case Some(answer) => (answer.Replayed? ==> p.Succeeded?) && (answer.WindowConflict? ==> p.Conflicted?)
    ensures Related(n, t, Jobs.Do(s, Jobs.Snapshot(pid))) && Jobs.Do(s, Jobs.Snapshot(pid)).effects == s.effects
  {
    OwnerAgrees(n, t, s.q, w);
    LookUpAgrees(n, t, s, w);
  }

  lemma ReceiptAdded(n: Names, t: Tables, t': Tables, receipts: map<Jobs.ReceiptKey, Jobs.Window>, w: Window)
    requires SameReceipts(n, t, receipts) && w.episodes != [] && t'.receipts == t.receipts[KeyOf(w) := w]
    ensures SameReceipts(n, t', receipts[Jobs.ReceiptKey(OwnerOf(w).tenant, w.job) := JobWindow(n, w)])
  {
    var receipts' := receipts[Jobs.ReceiptKey(OwnerOf(w).tenant, w.job) := JobWindow(n, w)];
    forall key ensures SameReceipt(n, t', receipts', key) {
      assert SameReceipt(n, t, receipts, key);
    }
  }

  /** The commit step of the Job model on the same window. */
  lemma CommitStepIs(n: Names, t: Tables, s: Jobs.Sys, pid: nat, w: Window)
    requires Related(n, t, s) && WindowOk(t, w) && WorksOn(n, s, pid, w) && s.processors[pid].Prepared?
    ensures Jobs.Enabled(s, Jobs.Commit(pid))
    ensures var s' := Jobs.Do(s, Jobs.Commit(pid));
            pid in s'.processors && s'.q == s.q &&
            if KeyOf(w) !in t.receipts then
              && s'.processors[pid].Succeeded? && s'.effects == s.effects + [w.job]
              && s'.receipts == s.receipts[Jobs.ReceiptKey(OwnerOf(w).tenant, w.job) := JobWindow(n, w)]
            else
              && s'.receipts == s.receipts && s'.effects == s.effects
              && (if t.receipts[KeyOf(w)] == w then s'.processors[pid].Succeeded? else s'.processors[pid].Conflicted?)
  {
    OwnerAgrees(n, t, s.q, w);
    LookUpAgrees(n, t, s, w);
  }

  lemma CommitAnswers(t: Tables, w: Window, offer: Offer, snap: Snapshot, changes: seq<Change>)
    requires Inv(t) && w.episodes != []
    ensures var r := CommitTx(t, w, offer, snap, changes);
            && (KeyOf(w) in t.receipts <==> r.Replayed? || r.WindowConflict?)
            && (r.Replayed? ==> t.receipts[KeyOf(w)] == w) && (r.WindowConflict? ==> t.receipts[KeyOf(w)] != w)
            && (r.Done? ==> r.tables.receipts == t.receipts[KeyOf(w) := w] && r.tables.links == t.links)
  {
    CommitNeverAborts(t, w, offer, snap, changes);
    if Proceeds(t, w, offer, snap) {
      CommitAddsReceipt(t, w, offer, snap, changes);
      CommitKeepsLinks(t, w, offer, snap, changes);
    }
  }

  lemma CommitKeepsLinks(t: Tables, w: Window, offer: Offer, snap: Snapshot, changes: seq<Change>)
    requires Inv(t) && Proceeds(t, w, offer, snap)
    ensures CommitTx(t, w, offer, snap, changes).Done? && CommitTx(t, w, offer, snap, changes).tables.links == t.links
  {
    var a, touched := CommitApplies(t, w, offer, snap, changes);
  }

  /** What the Job model makes of the commit's answer: a commit with effects adds
      the same receipt on both sides and one effect; a replay or a conflict moves
      the processor alone; an invalid or stale window makes it fail. */
  ghost predicate Mirrors(n: Names, t: Tables, s: Jobs.Sys, pid: nat, w: Window, r: Committed, committed: Jobs.Sys, failed: Jobs.Sys) {
    match r
    case Done(t') =>
      Related(n, t', committed) && committed.effects == s.effects + [w.job] && pid in committed.processors && committed.processors[pid].Succeeded?
    case Replayed(_) =>
      Related(n, t, committed) && committed.effects == s.effects && pid in committed.processors && committed.processors[pid].Succeeded?
    case WindowConflict =>
      Related(n, t, committed) && committed.effects == s.effects && pid in committed.processors && committed.processors[pid].Conflicted?
    case Aborted => false
    case _ => Related(n, t, failed) && failed.effects == s.effects && pid in failed.processors && failed.processors[pid].Failed?
  }

  /** The engine's commit transaction is the Job model's commit step. */
  lemma CommitRefines(n: Names, t: Tables, s: Jobs.Sys, pid: nat, w: Window, offer: Offer, snap: Snapshot, changes: seq<Change>)
    requires Inv(t) && Related(n, t, s) && WindowOk(t, w) && WorksOn(n, s, pid, w) && s.processors[pid].Prepared?
    ensures Jobs.Enabled(s, Jobs.Commit(pid)) && Jobs.Enabled(s, Jobs.Fail(pid))
    ensures Mirrors(n, t, s, pid, w, CommitTx(t, w, offer, snap, changes), Jobs.Do(s, Jobs.Commit(pid)), Jobs.Do(s, Jobs.Fail(pid)))
  {
    CommitStepIs(n, t, s, pid, w);
    CommitAnswers(t, w, offer, snap, changes);
    CommitNeverAborts(t, w, offer, snap, changes);
    var r := CommitTx(t, w, offer, snap, changes);
    if r.Done? {
      ReceiptAdded(n, t, r.tables, s.receipts, w);
    }
  }
}
