/** Invariants of the Job queue over every run of any number of processors:
    evidence conservation, first-in first-out windows, frozen windows that never
    change, and effects that happen exactly once. */
module JobSafety {
  import opened Refs
  import opened JobWindows
  import opened JobModel

  type Episodes = map<Ref, Owner>
  type Receipts = map<ReceiptKey, Window>

  /* ---- the queue invariant ---- */

  predicate Owned(episodes: Episodes, owner: Owner, refs: seq<Ref>) {
    forall k :: 0 <= k < |refs| ==> refs[k] in episodes && episodes[refs[k]] == owner
  }

  predicate JobOk(episodes: Episodes, outcomes: Outcomes, j: Job) {
    && EvidenceOk(outcomes, j.owner, j.evidence) && Owned(episodes, j.owner, j.evidence.episodes)
    && j.ref != "" && (!Open(j) ==> j.frozen) && (j.token != "" ==> j.frozen && Open(j))
  }

  predicate JobsOk(episodes: Episodes, outcomes: Outcomes, jobs: seq<Job>) {
    forall i :: 0 <= i < |jobs| ==> JobOk(episodes, outcomes, jobs[i])
  }

  /** Jobs of one owner complete in job_order; an open Job with a later one is
      frozen, and the later one is still collecting. */
  predicate Ordered(jobs: seq<Job>) {
    forall i, j :: 0 <= i < j < |jobs| && jobs[i].owner == jobs[j].owner && Open(jobs[i]) ==>
      jobs[i].frozen && Open(jobs[j]) && !jobs[j].frozen
  }

  predicate Distinct(jobs: seq<Job>) {
    forall i, j :: 0 <= i < j < |jobs| ==> jobs[i].ref != jobs[j].ref
  }

  predicate TablesOk(episodes: Episodes, outcomes: Outcomes) {
    && "" !in outcomes && "" !in episodes
    && forall o | o in outcomes :: outcomes[o].episode in episodes && episodes[outcomes[o].episode] == outcomes[o].owner
  }

  predicate HoldsEpisode(jobs: seq<Job>, i: nat, owner: Owner, e: Ref) {
    i < |jobs| && jobs[i].owner == owner && e in jobs[i].evidence.episodes
  }

  predicate HoldsOutcome(jobs: seq<Job>, i: nat, owner: Owner, o: Ref) {
    i < |jobs| && jobs[i].owner == owner && o in jobs[i].evidence.outcomes
  }

  /** Nothing recorded is missing from the Jobs of its owner. */
  ghost predicate Conserved(q: Queue) {
    && (forall e | e in q.episodes :: exists i :: HoldsEpisode(q.jobs, i, q.episodes[e], e))
    && (forall o | o in q.outcomes :: exists i :: HoldsOutcome(q.jobs, i, q.outcomes[o].owner, o))
  }

  ghost predicate QueueOk(q: Queue) {
    && TablesOk(q.episodes, q.outcomes) && JobsOk(q.episodes, q.outcomes, q.jobs)
    && Ordered(q.jobs) && Distinct(q.jobs) && Conserved(q)
  }

  /* ---- what never changes about a Job ---- */

  predicate Continues(j: Job, k: Job) {
    && j.ref == k.ref && j.owner == k.owner
    && (j.frozen ==> k.frozen && k.evidence == j.evidence)
    && (!Open(j) ==> k == j)
  }

  /** Rows are never removed or reordered; a frozen window is never rewritten and
      a completed row is never touched again. */
  predicate Grows(jobs: seq<Job>, jobs': seq<Job>) {
    |jobs| <= |jobs'| && forall i :: 0 <= i < |jobs| ==> Continues(jobs[i], jobs'[i])
  }

  /** Evidence leaves a Job only for a later Job of the same owner. */
  ghost predicate Forward(jobs: seq<Job>, jobs': seq<Job>) {
    && (forall i: nat, owner, e :: HoldsEpisode(jobs, i, owner, e) ==> exists k :: k >= i && HoldsEpisode(jobs', k, owner, e))
    && (forall i: nat, owner, o :: HoldsOutcome(jobs, i, owner, o) ==> exists k :: k >= i && HoldsOutcome(jobs', k, owner, o))
  }

  lemma GrowsTransitive(a: seq<Job>, b: seq<Job>, c: seq<Job>)
    requires Grows(a, b) && Grows(b, c)
    ensures Grows(a, c)
  {
    forall i | 0 <= i < |a| ensures Continues(a[i], c[i]) {
      assert Continues(a[i], b[i]) && Continues(b[i], c[i]);
    }
  }

  lemma ForwardTransitive(a: seq<Job>, b: seq<Job>, c: seq<Job>)
    requires Forward(a, b) && Forward(b, c)
    ensures Forward(a, c)
  {
    forall i: nat, owner, e | HoldsEpisode(a, i, owner, e) ensures exists k :: k >= i && HoldsEpisode(c, k, owner, e) {
      var k :| k >= i && HoldsEpisode(b, k, owner, e);
      var m :| m >= k && HoldsEpisode(c, m, owner, e);
    }
    forall i: nat, owner, o | HoldsOutcome(a, i, owner, o) ensures exists k :: k >= i && HoldsOutcome(c, k, owner, o) {
      var k :| k >= i && HoldsOutcome(b, k, owner, o);
      var m :| m >= k && HoldsOutcome(c, m, owner, o);
    }
  }

  lemma ForwardPointwise(jobs: seq<Job>, jobs': seq<Job>)
    requires |jobs| <= |jobs'|
    requires forall i :: 0 <= i < |jobs| ==> jobs'[i].owner == jobs[i].owner
    requires forall i, e :: 0 <= i < |jobs| && e in jobs[i].evidence.episodes ==> e in jobs'[i].evidence.episodes
    requires forall i, e :: 0 <= i < |jobs| && e in jobs[i].evidence.outcomes ==> e in jobs'[i].evidence.outcomes
    ensures Forward(jobs, jobs')
  {
    forall i: nat, owner, e | HoldsEpisode(jobs, i, owner, e) ensures exists k :: k >= i && HoldsEpisode(jobs', k, owner, e) {
      assert HoldsEpisode(jobs', i, owner, e);
    }
    forall i: nat, owner, o | HoldsOutcome(jobs, i, owner, o) ensures exists k :: k >= i && HoldsOutcome(jobs', k, owner, o) {
      assert HoldsOutcome(jobs', i, owner, o);
    }
  }

  lemma ConservedForward(q: Queue, q': Queue)
    requires Conserved(q) && Forward(q.jobs, q'.jobs)
    requires q'.episodes == q.episodes && q'.outcomes == q.outcomes
    ensures Conserved(q')
  {
    forall e | e in q'.episodes ensures exists i :: HoldsEpisode(q'.jobs, i, q'.episodes[e], e) {
      var i :| HoldsEpisode(q.jobs, i, q.episodes[e], e);
      var k :| k >= i && HoldsEpisode(q'.jobs, k, q.episodes[e], e);
    }
    forall o | o in q'.outcomes ensures exists i :: HoldsOutcome(q'.jobs, i, q'.outcomes[o].owner, o) {
      var i :| HoldsOutcome(q.jobs, i, q.outcomes[o].owner, o);
      var k :| k >= i && HoldsOutcome(q'.jobs, k, q.outcomes[o].owner, o);
    }
  }

  /** At most one collecting Job per owner, and it is the owner's last Job. */
  lemma CollectingIsUnique(jobs: seq<Job>, owner: Owner, i: nat, j: nat)
    requires Ordered(jobs) && i < |jobs| && j < |jobs| && Collecting(jobs[i], owner)
    ensures Collecting(jobs[j], owner) ==> i == j
    ensures jobs[j].owner == owner ==> j <= i
  {
  }

  /* ---- intake ---- */

  lemma BindGrows(q: Queue, owner: Owner, episode: Ref, added: set<Ref>)
    requires TablesOk(q.episodes, q.outcomes) && episode != "" && "" !in added && added !! q.outcomes.Keys
    requires episode in q.episodes ==> q.episodes[episode] == owner
    ensures var outcomes' := Bind(q.outcomes, owner, episode, added);
            && TablesOk(q.episodes[episode := owner], outcomes')
            && (forall o | o in q.outcomes :: o in outcomes' && outcomes'[o] == q.outcomes[o])
            && (forall o | o in added :: o in outcomes' && outcomes'[o] == OutcomeRow(owner, episode))
  {
  }

  lemma JobsOkGrows(episodes: Episodes, outcomes: Outcomes, episodes': Episodes, outcomes': Outcomes, jobs: seq<Job>)
    requires JobsOk(episodes, outcomes, jobs)
    requires forall e | e in episodes :: e in episodes' && episodes'[e] == episodes[e]
    requires forall o | o in outcomes :: o in outcomes' && outcomes'[o] == outcomes[o]
    ensures JobsOk(episodes', outcomes', jobs)
  {
    forall i | 0 <= i < |jobs| ensures JobOk(episodes', outcomes', jobs[i]) {
      var j := jobs[i];
      assert JobOk(episodes, outcomes, j);
      assert Beside(outcomes', j.owner, j.evidence.episodes, j.evidence.outcomes);
    }
  }

  /** Merging an Episode and all of its Outcomes keeps evidence well formed. */
  lemma MergeOk(episodes: Episodes, outcomes: Outcomes, owner: Owner, stored: Evidence, episode: Ref, outs: seq<Ref>)
    requires TablesOk(episodes, outcomes) && episode in episodes && episodes[episode] == owner
    requires stored == Evidence([], []) || (EvidenceOk(outcomes, owner, stored) && Owned(episodes, owner, stored.episodes))
    requires forall k :: 0 <= k < |outs| ==> outs[k] in outcomes && outcomes[outs[k]] == OutcomeRow(owner, episode)
    ensures var m := Merge(stored, [episode], outs);
            && EvidenceOk(outcomes, owner, m) && Owned(episodes, owner, m.episodes)
            && episode in m.episodes && (forall o | o in outs :: o in m.outcomes)
            && (forall e | e in stored.episodes :: e in m.episodes) && (forall o | o in stored.outcomes :: o in m.outcomes)
  {
    var m := Merge(stored, [episode], outs);
    AppendUniqueContents(stored.episodes, [episode]);
    AppendUniqueContents(stored.outcomes, outs);
    assert forall e :: e in [episode] <==> e == episode;
    forall k | 0 <= k < |m.episodes| ensures m.episodes[k] in episodes && episodes[m.episodes[k]] == owner {
      assert m.episodes[k] in m.episodes;
    }
    forall k | 0 <= k < |m.outcomes|
      ensures m.outcomes[k] in outcomes && outcomes[m.outcomes[k]].owner == owner && outcomes[m.outcomes[k]].episode in m.episodes
    {
      assert m.outcomes[k] in m.outcomes;
    }
  }

  ghost predicate IntakeEnabled(q: Queue, owner: Owner, episode: Ref, added: set<Ref>, outs: seq<Ref>, ref: Ref) {
    && episode != "" && (episode in q.episodes ==> q.episodes[episode] == owner)
    && "" !in added && added !! q.outcomes.Keys && FreshJob(q.jobs, ref) && Unique(outs)
    && OutcomesOf(q.outcomes, owner, episode, added, outs)
  }

  /** What one enqueue does to the rows: one row is extended, one row is added, or
      everything was already there. */
  ghost predicate Joined(jobs: seq<Job>, jobs': seq<Job>, owner: Owner, i: nat, merged: Evidence) {
    && i < |jobs'| && jobs'[i].owner == owner && jobs'[i].evidence == merged && Collecting(jobs'[i], owner)
    && jobs'[i].token == (if i < |jobs| then jobs[i].token else "")
    && ((i < |jobs| && Collecting(jobs[i], owner) && |jobs'| == |jobs| && jobs'[i].ref == jobs[i].ref)
        || (i == |jobs| && |jobs'| == |jobs| + 1))
    && forall k :: 0 <= k < |jobs| && k != i ==> jobs'[k] == jobs[k]
  }

  /** enqueueConsolidationEvidence puts the Episode and all of its Outcomes in
      the owner's one collecting Job; it never violates a constraint. */
  lemma EnqueueJoins(episodes: Episodes, outcomes: Outcomes, jobs: seq<Job>, owner: Owner, episode: Ref, outs: seq<Ref>, ref: Ref, now: int)
    returns (i: nat, merged: Evidence)
    requires TablesOk(episodes, outcomes) && JobsOk(episodes, outcomes, jobs)
    requires episode in episodes && episodes[episode] == owner
    requires forall k :: 0 <= k < |outs| ==> outs[k] in outcomes && outcomes[outs[k]] == OutcomeRow(owner, episode)
    ensures Enqueue(jobs, owner, [episode], outs, ref, now).Some?
    ensures var jobs' := Enqueue(jobs, owner, [episode], outs, ref, now).value;
            && Joined(jobs, jobs', owner, i, merged) && (i == |jobs| ==> jobs'[i].ref == ref && forall k :: 0 <= k < |jobs| ==> !Collecting(jobs[k], owner))
            && EvidenceOk(outcomes, owner, merged) && Owned(episodes, owner, merged.episodes)
            && episode in merged.episodes && (forall o | o in outs :: o in merged.outcomes)
            && (i < |jobs| ==> (forall e | e in jobs[i].evidence.episodes :: e in merged.episodes)
                               && (forall o | o in jobs[i].evidence.outcomes :: o in merged.outcomes))
  {
    var found := FindCollecting(jobs, owner);
    var stored := if found < 0 then Evidence([], []) else jobs[found].evidence;
    if found >= 0 {
      assert JobOk(episodes, outcomes, jobs[found]);
    }
    merged := Merge(stored, [episode], outs);
    MergeOk(episodes, outcomes, owner, stored, episode, outs);
    i := if found < 0 then |jobs| else found;
  }

  lemma JoinedOrdered(jobs: seq<Job>, jobs': seq<Job>, owner: Owner, i: nat, merged: Evidence)
    requires Ordered(jobs) && Distinct(jobs) && Joined(jobs, jobs', owner, i, merged)
    requires i == |jobs| ==> FreshJob(jobs, jobs'[i].ref) && forall k :: 0 <= k < |jobs| ==> !Collecting(jobs[k], owner)
    ensures Ordered(jobs') && Distinct(jobs') && Grows(jobs, jobs')
  {
    forall a, b | 0 <= a < b < |jobs'| && jobs'[a].owner == jobs'[b].owner && Open(jobs'[a])
      ensures jobs'[a].frozen && Open(jobs'[b]) && !jobs'[b].frozen
    {
      if b == |jobs| {
        assert !Collecting(jobs[a], owner);
      } else {
        assert jobs[a].owner == jobs[b].owner && Open(jobs[a]);
      }
    }
    forall a, b | 0 <= a < b < |jobs'| ensures jobs'[a].ref != jobs'[b].ref {
      if b < |jobs| {
        assert jobs[a].ref != jobs[b].ref;
      }
    }
  }

  lemma JoinedForward(jobs: seq<Job>, jobs': seq<Job>, owner: Owner, i: nat, merged: Evidence)
    requires Joined(jobs, jobs', owner, i, merged)
    requires i < |jobs| ==> (forall e | e in jobs[i].evidence.episodes :: e in merged.episodes)
                            && (forall o | o in jobs[i].evidence.outcomes :: o in merged.outcomes)
    ensures Forward(jobs, jobs')
  {
    ForwardPointwise(jobs, jobs');
  }

  lemma JoinedConserved(q: Queue, q': Queue, owner: Owner, episode: Ref, added: set<Ref>, i: nat, merged: Evidence)
    requires Conserved(q) && Forward(q.jobs, q'.jobs) && Joined(q.jobs, q'.jobs, owner, i, merged)
    requires q'.episodes == q.episodes[episode := owner] && q'.outcomes == Bind(q.outcomes, owner, episode, added)
    requires episode in q.episodes ==> q.episodes[episode] == owner
    requires episode in merged.episodes && (forall o | o in added :: o in merged.outcomes)
    ensures Conserved(q')
  {
    forall e | e in q'.episodes ensures exists k :: HoldsEpisode(q'.jobs, k, q'.episodes[e], e) {
      if e == episode {
        assert HoldsEpisode(q'.jobs, i, owner, e);
      } else {
        var k :| HoldsEpisode(q.jobs, k, q.episodes[e], e);
        var m :| m >= k && HoldsEpisode(q'.jobs, m, q.episodes[e], e);
      }
    }
    forall o | o in q'.outcomes ensures exists k :: HoldsOutcome(q'.jobs, k, q'.outcomes[o].owner, o) {
      if o in q.outcomes {
        var k :| HoldsOutcome(q.jobs, k, q.outcomes[o].owner, o);
        var m :| m >= k && HoldsOutcome(q'.jobs, m, q.outcomes[o].owner, o);
      } else {
        assert HoldsOutcome(q'.jobs, i, owner, o);
      }
    }
  }

  /** The rows after an intake, whatever `Joined` rows they are. */
  lemma IntakeRows(q: Queue, q': Queue, owner: Owner, episode: Ref, added: set<Ref>, i: nat, merged: Evidence)
    requires QueueOk(q) && Joined(q.jobs, q'.jobs, owner, i, merged)
    requires i == |q.jobs| ==> FreshJob(q.jobs, q'.jobs[i].ref) && forall k :: 0 <= k < |q.jobs| ==> !Collecting(q.jobs[k], owner)
    requires i < |q.jobs| ==> (forall e | e in q.jobs[i].evidence.episodes :: e in merged.episodes)
                              && (forall o | o in q.jobs[i].evidence.outcomes :: o in merged.outcomes)
    requires q'.episodes == q.episodes[episode := owner] && q'.outcomes == Bind(q.outcomes, owner, episode, added)
    requires TablesOk(q'.episodes, q'.outcomes) && JobsOk(q'.episodes, q'.outcomes, q.jobs)
    requires EvidenceOk(q'.outcomes, owner, merged) && Owned(q'.episodes, owner, merged.episodes)
    requires episode in q.episodes ==> q.episodes[episode] == owner
    requires episode in merged.episodes && (forall o | o in added :: o in merged.outcomes)
    ensures QueueOk(q') && Grows(q.jobs, q'.jobs) && Forward(q.jobs, q'.jobs)
  {
    JoinedOrdered(q.jobs, q'.jobs, owner, i, merged);
    JoinedForward(q.jobs, q'.jobs, owner, i, merged);
    JoinedConserved(q, q', owner, episode, added, i, merged);
    if i < |q.jobs| {
      assert JobOk(q'.episodes, q'.outcomes, q.jobs[i]);
    }
    JoinedJobsOk(q'.episodes, q'.outcomes, q.jobs, q'.jobs, owner, i, merged);
  }

  /** The new tables, and the merged evidence the enqueue joins to a Job. */
  lemma IntakeJoins(q: Queue, owner: Owner, episode: Ref, added: set<Ref>, outs: seq<Ref>, ref: Ref, now: int)
    returns (q': Queue, i: nat, merged: Evidence)
    requires TablesOk(q.episodes, q.outcomes) && JobsOk(q.episodes, q.outcomes, q.jobs)
    requires IntakeEnabled(q, owner, episode, added, outs, ref)
    ensures Enqueue(q.jobs, owner, [episode], outs, ref, now).Some?
    ensures q' == Queue(Enqueue(q.jobs, owner, [episode], outs, ref, now).value,
                        q.episodes[episode := owner], Bind(q.outcomes, owner, episode, added))
    ensures Joined(q.jobs, q'.jobs, owner, i, merged)
    ensures i == |q.jobs| ==> q'.jobs[i].ref == ref && forall k :: 0 <= k < |q.jobs| ==> !Collecting(q.jobs[k], owner)
    ensures i < |q.jobs| ==> (forall e | e in q.jobs[i].evidence.episodes :: e in merged.episodes)
                             && (forall o | o in q.jobs[i].evidence.outcomes :: o in merged.outcomes)
    ensures TablesOk(q'.episodes, q'.outcomes) && JobsOk(q'.episodes, q'.outcomes, q.jobs)
    ensures EvidenceOk(q'.outcomes, owner, merged) && Owned(q'.episodes, owner, merged.episodes)
    ensures episode in merged.episodes && (forall o | o in outs :: o in merged.outcomes)
  {
    var episodes', outcomes' := q.episodes[episode := owner], Bind(q.outcomes, owner, episode, added);
    BindGrows(q, owner, episode, added);
    JobsOkGrows(q.episodes, q.outcomes, episodes', outcomes', q.jobs);
    forall k | 0 <= k < |outs| ensures outs[k] in outcomes' && outcomes'[outs[k]] == OutcomeRow(owner, episode) {
      assert outs[k] in outs;
    }
    i, merged := EnqueueJoins(episodes', outcomes', q.jobs, owner, episode, outs, ref, now);
    q' := Queue(Enqueue(q.jobs, owner, [episode], outs, ref, now).value, episodes', outcomes');
  }

  /** Every intake puts its Episode, with all of that Episode's Outcomes, in the
      collecting Job of the owner, and keeps the queue invariant. */
  lemma IntakePreserves(q: Queue, owner: Owner, episode: Ref, added: set<Ref>, outs: seq<Ref>, ref: Ref, now: int)
    returns (q': Queue, i: nat)
    requires QueueOk(q) && IntakeEnabled(q, owner, episode, added, outs, ref)
    ensures Enqueue(q.jobs, owner, [episode], outs, ref, now).Some?
    ensures q' == Queue(Enqueue(q.jobs, owner, [episode], outs, ref, now).value,
                        q.episodes[episode := owner], Bind(q.outcomes, owner, episode, added))
    ensures QueueOk(q') && Grows(q.jobs, q'.jobs) && Forward(q.jobs, q'.jobs)
    ensures HoldsEpisode(q'.jobs, i, owner, episode) && Collecting(q'.jobs[i], owner)
    ensures forall o | o in q'.outcomes && q'.outcomes[o] == OutcomeRow(owner, episode) :: o in q'.jobs[i].evidence.outcomes
    ensures forall k :: 0 <= k < |q.jobs| && k != i ==> q'.jobs[k] == q.jobs[k]
    ensures |q'.jobs| <= |q.jobs| + 1 && (|q'.jobs| > |q.jobs| ==> i == |q.jobs|)
  {
    var merged: Evidence;
    q', i, merged := IntakeJoins(q, owner, episode, added, outs, ref, now);
    IntakeRows(q, q', owner, episode, added, i, merged);
    forall o | o in q'.outcomes && q'.outcomes[o] == OutcomeRow(owner, episode) ensures o in q'.jobs[i].evidence.outcomes {
      assert o in outs;
    }
  }

  lemma JoinedJobsOk(episodes: Episodes, outcomes: Outcomes, jobs: seq<Job>, jobs': seq<Job>, owner: Owner, i: nat, merged: Evidence)
    requires JobsOk(episodes, outcomes, jobs) && Joined(jobs, jobs', owner, i, merged)
    requires EvidenceOk(outcomes, owner, merged) && Owned(episodes, owner, merged.episodes) && jobs'[i].ref != ""
    ensures JobsOk(episodes, outcomes, jobs')
  {
    forall k | 0 <= k < |jobs'| ensures JobOk(episodes, outcomes, jobs'[k]) {
      if k < |jobs| {
        assert JobOk(episodes, outcomes, jobs[k]);
      }
    }
  }

  /** Losing the race against a lease ends in the same rows as coming after it. */
  lemma RaceIsHarmless(jobs: seq<Job>, owner: Owner, episodes: seq<Ref>, outs: seq<Ref>, ref: Ref, now: int)
    requires FindCollecting(jobs, owner) >= 0
    requires episodes != [] ==> exists r :: r in episodes && r != ""
    ensures EnqueueAfterRace(jobs, owner, episodes, outs, now) == Enqueue(jobs, owner, episodes, outs, ref, now)
  {
    if episodes != [] {
      var r :| r in episodes && r != "";
      AppendUniqueContents([], episodes);
      assert r in Merge(Evidence([], []), episodes, outs).episodes;
    }
  }

  /* ---- lease ---- */

  ghost predicate LeaseEnabled(q: Queue, i: nat, previous: Option<nat>, r: Request, now: int, token: Ref, remainder: Ref) {
    && ValidRequest(r) && Leasable(q.jobs, i, r, now) && IsPrevious(q.jobs, q.jobs[i].owner, previous)
    && token != "" && FreshJob(q.jobs, remainder)
  }

  /** What one lease does to the rows: row `i` carries `window` under the new
      token, and what did not fit becomes one new collecting row. */
  ghost predicate LeasedRows(jobs: seq<Job>, jobs': seq<Job>, i: nat, split: Split, token: Ref) {
    && i < |jobs| && Open(jobs[i]) && jobs'[..] == jobs' && |jobs| <= |jobs'|
    && jobs'[i].ref == jobs[i].ref && jobs'[i].owner == jobs[i].owner && jobs'[i].frozen && Open(jobs'[i])
    && jobs'[i].token == token && jobs'[i].evidence == split.window
    && (jobs[i].frozen ==> split.window == jobs[i].evidence && split.rest.episodes == [])
    && (forall k :: 0 <= k < |jobs| && k != i ==> jobs'[k] == jobs[k])
    && (if split.rest.episodes == [] then |jobs'| == |jobs|
        else |jobs'| == |jobs| + 1 && Collecting(jobs'[|jobs|], jobs[i].owner)
             && jobs'[|jobs|].evidence == split.rest && jobs'[|jobs|].token == "" && FreshJob(jobs, jobs'[|jobs|].ref))
  }

  lemma PreviousOk(q: Queue, owner: Owner, previous: Option<nat>)
    requires JobsOk(q.episodes, q.outcomes, q.jobs) && IsPrevious(q.jobs, owner, previous)
    ensures PreviousEvidence(q.jobs, previous).Some? ==> EvidenceOk(q.outcomes, owner, PreviousEvidence(q.jobs, previous).value)
  {
    if previous.Some? {
      assert JobOk(q.episodes, q.outcomes, q.jobs[previous.value]);
    }
  }

  /** A lease never meets a failing partition check, and splits the collected
      evidence as `FreezeOk` says. */
  lemma LeaseSplits(q: Queue, i: nat, previous: Option<nat>, r: Request, now: int, token: Ref, remainder: Ref) returns (split: Split)
    requires JobsOk(q.episodes, q.outcomes, q.jobs) && LeaseEnabled(q, i, previous, r, now, token, remainder)
    ensures LeaseJobs(q, i, previous, r, now, token, remainder).Some?
    ensures LeasedRows(q.jobs, LeaseJobs(q, i, previous, r, now, token, remainder).value, i, split, token)
    ensures !q.jobs[i].frozen ==> FreezeOk(q.outcomes, q.jobs[i].owner, q.jobs[i].evidence, r.max, r.overlap, split)
  {
    assert JobOk(q.episodes, q.outcomes, q.jobs[i]);
    if q.jobs[i].frozen {
      split := Split(q.jobs[i].evidence, Evidence([], []));
    } else {
      var before := PreviousEvidence(q.jobs, previous);
      PreviousOk(q, q.jobs[i].owner, previous);
      FreezeSplits(q.outcomes, q.jobs[i].owner, q.jobs[i].evidence, before, r.max, r.overlap);
      split := Freeze(q.outcomes, q.jobs[i].owner, q.jobs[i].evidence, before, r.max, r.overlap).value;
    }
  }

  lemma LeasedOrdered(jobs: seq<Job>, jobs': seq<Job>, i: nat, split: Split, token: Ref)
    requires Ordered(jobs) && Distinct(jobs) && LeasedRows(jobs, jobs', i, split, token)
    requires forall k :: 0 <= k < i && jobs[k].owner == jobs[i].owner ==> !Open(jobs[k])
    ensures Ordered(jobs') && Distinct(jobs') && Grows(jobs, jobs')
  {
    forall a, b | 0 <= a < b < |jobs'| && jobs'[a].owner == jobs'[b].owner && Open(jobs'[a])
      ensures jobs'[a].frozen && Open(jobs'[b]) && !jobs'[b].frozen
    {
      assert jobs[a].owner == jobs'[a].owner;
      if b == |jobs| {
        assert a != i ==> a < |jobs|;
      } else {
        assert jobs[a].owner == jobs[b].owner && Open(jobs[a]);
      }
    }
    forall a, b | 0 <= a < b < |jobs'| ensures jobs'[a].ref != jobs'[b].ref {
      if b < |jobs| {
        assert jobs[a].ref != jobs[b].ref;
      }
    }
  }

  lemma LeasedForward(outcomes: Outcomes, jobs: seq<Job>, jobs': seq<Job>, i: nat, split: Split, token: Ref, r: Request)
    requires LeasedRows(jobs, jobs', i, split, token)
    requires !jobs[i].frozen ==> FreezeOk(outcomes, jobs[i].owner, jobs[i].evidence, r.max, r.overlap, split)
    ensures Forward(jobs, jobs')
  {
    forall k: nat, owner, e | HoldsEpisode(jobs, k, owner, e) ensures exists m :: m >= k && HoldsEpisode(jobs', m, owner, e) {
      var m := if k == i && e !in split.window.episodes then |jobs| else k;
      assert m >= k && HoldsEpisode(jobs', m, owner, e);
    }
    forall k: nat, owner, o | HoldsOutcome(jobs, k, owner, o) ensures exists m :: m >= k && HoldsOutcome(jobs', m, owner, o) {
      var m := if k == i && o !in split.window.outcomes then |jobs| else k;
      assert m >= k && HoldsOutcome(jobs', m, owner, o);
    }
  }

  lemma LeaseOwned(q: Queue, i: nat, previous: Option<nat>, r: Request, now: int, token: Ref, remainder: Ref, split: Split)
    requires JobsOk(q.episodes, q.outcomes, q.jobs) && LeaseEnabled(q, i, previous, r, now, token, remainder)
    requires LeaseJobs(q, i, previous, r, now, token, remainder).Some?
    requires LeasedRows(q.jobs, LeaseJobs(q, i, previous, r, now, token, remainder).value, i, split, token)
    ensures Owned(q.episodes, q.jobs[i].owner, split.window.episodes)
  {
    assert JobOk(q.episodes, q.outcomes, q.jobs[i]);
    if !q.jobs[i].frozen {
      var before := PreviousEvidence(q.jobs, previous);
      PreviousOk(q, q.jobs[i].owner, previous);
      FreezeInventsNothing(q.outcomes, q.jobs[i].owner, q.jobs[i].evidence, before, r.max, r.overlap);
      if previous.Some? {
        assert JobOk(q.episodes, q.outcomes, q.jobs[previous.value]);
      }
      forall k | 0 <= k < |split.window.episodes|
        ensures split.window.episodes[k] in q.episodes && q.episodes[split.window.episodes[k]] == q.jobs[i].owner
      {
        assert split.window.episodes[k] in split.window.episodes;
      }
    }
  }

  lemma LeasedJobsOk(episodes: Episodes, outcomes: Outcomes, jobs: seq<Job>, jobs': seq<Job>, i: nat, split: Split, token: Ref, r: Request)
    requires JobsOk(episodes, outcomes, jobs) && LeasedRows(jobs, jobs', i, split, token)
    requires !jobs[i].frozen ==> FreezeOk(outcomes, jobs[i].owner, jobs[i].evidence, r.max, r.overlap, split)
    requires Owned(episodes, jobs[i].owner, split.window.episodes)
    ensures JobsOk(episodes, outcomes, jobs')
  {
    assert JobOk(episodes, outcomes, jobs[i]);
    forall k | 0 <= k < |split.rest.episodes|
      ensures split.rest.episodes[k] in episodes && episodes[split.rest.episodes[k]] == jobs[i].owner
    {
      assert split.rest.episodes[k] in split.rest.episodes;
      assert split.rest.episodes[k] in jobs[i].evidence.episodes;
    }
    forall k | 0 <= k < |jobs'| ensures JobOk(episodes, outcomes, jobs'[k]) {
      if k < |jobs| {
        assert JobOk(episodes, outcomes, jobs[k]);
      }
    }
  }

  lemma LeasePreserves(q: Queue, i: nat, previous: Option<nat>, r: Request, now: int, token: Ref, remainder: Ref)
    returns (jobs': seq<Job>, split: Split)
    requires QueueOk(q) && LeaseEnabled(q, i, previous, r, now, token, remainder)
    ensures LeaseJobs(q, i, previous, r, now, token, remainder) == Some(jobs')
    ensures LeasedRows(q.jobs, jobs', i, split, token)
    ensures !q.jobs[i].frozen ==> FreezeOk(q.outcomes, q.jobs[i].owner, q.jobs[i].evidence, r.max, r.overlap, split)
    ensures QueueOk(q.(jobs := jobs')) && Grows(q.jobs, jobs') && Forward(q.jobs, jobs')
  {
    split := LeaseSplits(q, i, previous, r, now, token, remainder);
    LeaseOwned(q, i, previous, r, now, token, remainder, split);
    jobs' := LeaseJobs(q, i, previous, r, now, token, remainder).value;
    LeasedOk(q, jobs', i, split, token, r);
  }

  lemma LeasedOk(q: Queue, jobs': seq<Job>, i: nat, split: Split, token: Ref, r: Request)
    requires QueueOk(q) && LeasedRows(q.jobs, jobs', i, split, token)
    requires forall k :: 0 <= k < i && q.jobs[k].owner == q.jobs[i].owner ==> !Open(q.jobs[k])
    requires !q.jobs[i].frozen ==> FreezeOk(q.outcomes, q.jobs[i].owner, q.jobs[i].evidence, r.max, r.overlap, split)
    requires Owned(q.episodes, q.jobs[i].owner, split.window.episodes)
    ensures QueueOk(q.(jobs := jobs')) && Grows(q.jobs, jobs') && Forward(q.jobs, jobs')
  {
    LeasedOrdered(q.jobs, jobs', i, split, token);
    LeasedForward(q.outcomes, q.jobs, jobs', i, split, token, r);
    LeasedJobsOk(q.episodes, q.outcomes, q.jobs, jobs', i, split, token, r);
    ConservedForward(q, q.(jobs := jobs'));
  }

  /* ---- complete and retry ---- */

  /** Row `i` is completed or released; no other row changes. */
  lemma SettledOk(q: Queue, jobs': seq<Job>)
    requires QueueOk(q) && |jobs'| == |q.jobs|
    requires forall i :: 0 <= i < |jobs'| ==>
               || jobs'[i] == q.jobs[i]
               || (Open(q.jobs[i]) && q.jobs[i].frozen && jobs'[i].frozen && jobs'[i].token == "" && jobs'[i].ref == q.jobs[i].ref
                   && jobs'[i].owner == q.jobs[i].owner && jobs'[i].evidence == q.jobs[i].evidence)
    ensures QueueOk(q.(jobs := jobs')) && Grows(q.jobs, jobs') && Forward(q.jobs, jobs')
  {
    forall i | 0 <= i < |jobs'| ensures JobOk(q.episodes, q.outcomes, jobs'[i]) && Continues(q.jobs[i], jobs'[i]) {
      assert JobOk(q.episodes, q.outcomes, q.jobs[i]);
    }
    SettledOrdered(q.jobs, jobs');
    ForwardPointwise(q.jobs, jobs');
    ConservedForward(q, q.(jobs := jobs'));
  }

  lemma SettledOrdered(jobs: seq<Job>, jobs': seq<Job>)
    requires Ordered(jobs) && Distinct(jobs) && |jobs'| == |jobs|
    requires forall i :: 0 <= i < |jobs'| ==>
               || jobs'[i] == jobs[i]
               || (Open(jobs[i]) && jobs[i].frozen && jobs'[i].frozen && jobs'[i].ref == jobs[i].ref && jobs'[i].owner == jobs[i].owner)
    ensures Ordered(jobs') && Distinct(jobs')
  {
    forall a, b | 0 <= a < b < |jobs'| && jobs'[a].owner == jobs'[b].owner && Open(jobs'[a])
      ensures jobs'[a].frozen && Open(jobs'[b]) && !jobs'[b].frozen
    {
      assert jobs[a].owner == jobs[b].owner && Open(jobs[a]);
    }
    forall a, b | 0 <= a < b < |jobs'| ensures jobs'[a].ref != jobs'[b].ref {
      assert jobs[a].ref != jobs[b].ref;
    }
  }

  lemma CompletePreserves(q: Queue, ref: Ref, token: Ref, now: int)
    requires QueueOk(q) && token != ""
    ensures var jobs' := CompleteJobs(q.jobs, ref, token, now);
            QueueOk(q.(jobs := jobs')) && Grows(q.jobs, jobs') && Forward(q.jobs, jobs')
  {
    var jobs' := CompleteJobs(q.jobs, ref, token, now);
    forall i | 0 <= i < |jobs'| && Matches(q.jobs[i], ref, token) ensures q.jobs[i].frozen {
      assert JobOk(q.episodes, q.outcomes, q.jobs[i]);
    }
    SettledOk(q, jobs');
  }

  lemma RetryPreserves(q: Queue, ref: Ref, token: Ref, notBefore: int, now: int)
    requires QueueOk(q) && token != ""
    ensures var jobs' := RetryJobs(q.jobs, ref, token, notBefore, now);
            QueueOk(q.(jobs := jobs')) && Grows(q.jobs, jobs') && Forward(q.jobs, jobs')
  {
    var jobs' := RetryJobs(q.jobs, ref, token, notBefore, now);
    forall i | 0 <= i < |jobs'| && Matches(q.jobs[i], ref, token) ensures q.jobs[i].frozen {
      assert JobOk(q.episodes, q.outcomes, q.jobs[i]);
    }
    SettledOk(q, jobs');
  }

  /* ---- processors, receipts and effects ---- */

  predicate FrozenAt(jobs: seq<Job>, i: nat, ref: Ref, e: Evidence) {
    i < |jobs| && jobs[i].ref == ref && jobs[i].frozen && jobs[i].evidence == e
  }

  /** Every receipt is the window of the frozen Job it names. */
  ghost predicate ReceiptsOk(jobs: seq<Job>, receipts: Receipts) {
    forall key | key in receipts ::
      exists i: nat :: FrozenAt(jobs, i, key.job, receipts[key].evidence) && receipts[key].owner == jobs[i].owner
                  && key.tenant == jobs[i].owner.tenant
  }

  predicate Done(receipts: Receipts, j: Job) {
    var key := ReceiptKey(j.owner.tenant, j.ref);
    key in receipts && receipts[key] == Window(j.owner, j.evidence)
  }

  predicate DoneOk(jobs: seq<Job>, receipts: Receipts) {
    forall i :: 0 <= i < |jobs| && !Open(jobs[i]) ==> Done(receipts, jobs[i])
  }

  /** Effects were committed once for each receipt, and for nothing else. */
  ghost predicate EffectsOk(receipts: Receipts, effects: seq<Ref>) {
    && Unique(effects)
    && (forall key | key in receipts :: key.job in effects)
    && (forall ref | ref in effects :: exists key :: key in receipts && key.job == ref)
  }

  ghost predicate ProgressOk(jobs: seq<Job>, receipts: Receipts, tokens: set<Ref>, p: Progress) {
    && p.token in tokens && p.token != "" && !p.Conflicted?
    && exists i: nat :: FrozenAt(jobs, i, p.job, p.evidence) && (p.Succeeded? ==> Done(receipts, jobs[i]))
  }

  ghost predicate ProcessorsOk(s: Sys) {
    forall pid | pid in s.processors :: ProgressOk(s.q.jobs, s.receipts, s.tokens, s.processors[pid])
  }

  predicate TokensOk(jobs: seq<Job>, tokens: set<Ref>) {
    "" in tokens && forall i :: 0 <= i < |jobs| ==> jobs[i].token in tokens
  }

  ghost predicate Inv(s: Sys) {
    && QueueOk(s.q) && TokensOk(s.q.jobs, s.tokens)
    && ReceiptsOk(s.q.jobs, s.receipts) && DoneOk(s.q.jobs, s.receipts) && EffectsOk(s.receipts, s.effects)
    && ProcessorsOk(s)
  }

  lemma InitOk()
    ensures Inv(Init())
  {
  }

  lemma ReceiptsGrow(jobs: seq<Job>, jobs': seq<Job>, receipts: Receipts)
    requires ReceiptsOk(jobs, receipts) && Grows(jobs, jobs')
    ensures ReceiptsOk(jobs', receipts)
  {
    forall key | key in receipts
      ensures exists i: nat :: FrozenAt(jobs', i, key.job, receipts[key].evidence) && receipts[key].owner == jobs'[i].owner
                          && key.tenant == jobs'[i].owner.tenant
    {
      var i: nat :| FrozenAt(jobs, i, key.job, receipts[key].evidence) && receipts[key].owner == jobs[i].owner
               && key.tenant == jobs[i].owner.tenant;
      assert Continues(jobs[i], jobs'[i]);
      assert FrozenAt(jobs', i, key.job, receipts[key].evidence);
    }
  }

  lemma ProcessorGrows(jobs: seq<Job>, jobs': seq<Job>, receipts: Receipts, receipts': Receipts, tokens: set<Ref>, tokens': set<Ref>, p: Progress)
    requires ProgressOk(jobs, receipts, tokens, p) && Grows(jobs, jobs') && tokens <= tokens'
    requires forall key | key in receipts :: key in receipts' && receipts'[key] == receipts[key]
    ensures ProgressOk(jobs', receipts', tokens', p)
  {
    var i: nat :| FrozenAt(jobs, i, p.job, p.evidence) && (p.Succeeded? ==> Done(receipts, jobs[i]));
    assert Continues(jobs[i], jobs'[i]);
    assert FrozenAt(jobs', i, p.job, p.evidence);
  }

  /** Steps that only move the queue forward keep everything else. */
  lemma QueueStepOk(s: Sys, s': Sys)
    requires Inv(s) && QueueOk(s'.q) && Grows(s.q.jobs, s'.q.jobs)
    requires s'.receipts == s.receipts && s'.effects == s.effects && s.tokens <= s'.tokens
    requires TokensOk(s'.q.jobs, s'.tokens) && DoneOk(s'.q.jobs, s'.receipts)
    requires forall pid | pid in s'.processors ::
               (pid in s.processors && s'.processors[pid] == s.processors[pid])
               || ProgressOk(s'.q.jobs, s'.receipts, s'.tokens, s'.processors[pid])
    ensures Inv(s')
  {
    ReceiptsGrow(s.q.jobs, s'.q.jobs, s.receipts);
    forall pid | pid in s'.processors ensures ProgressOk(s'.q.jobs, s'.receipts, s'.tokens, s'.processors[pid]) {
      if pid in s.processors && s'.processors[pid] == s.processors[pid] {
        ProcessorGrows(s.q.jobs, s'.q.jobs, s.receipts, s'.receipts, s.tokens, s'.tokens, s.processors[pid]);
      }
    }
  }

  /* ---- the engine ---- */

  /** The owner derived from a frozen window's Episodes is its Job's owner. */
  lemma WindowOwnerIsJobOwner(q: Queue, i: nat)
    requires JobsOk(q.episodes, q.outcomes, q.jobs) && i < |q.jobs|
    ensures WindowOwner(q, q.jobs[i].evidence) == Some(q.jobs[i].owner)
  {
    assert JobOk(q.episodes, q.outcomes, q.jobs[i]);
  }

  /** A scheduler-driven look-up finds no receipt or exactly its own. */
  lemma LookUpNeverConflicts(s: Sys, i: nat)
    requires ReceiptsOk(s.q.jobs, s.receipts) && Distinct(s.q.jobs) && i < |s.q.jobs| && s.q.jobs[i].frozen
    ensures var j := s.q.jobs[i];
            match LookUp(s, j.ref, Window(j.owner, j.evidence))
            case Absent => true
            case Found => Done(s.receipts, j)
            case Conflicting => false
  {
    var j := s.q.jobs[i];
    var key := ReceiptKey(j.owner.tenant, j.ref);
    if key in s.receipts {
      var k: nat :| FrozenAt(s.q.jobs, k, key.job, s.receipts[key].evidence) && s.receipts[key].owner == s.q.jobs[k].owner
               && key.tenant == s.q.jobs[k].owner.tenant;
      assert k == i;
    }
  }

  lemma AbsentMeansNoEffect(jobs: seq<Job>, receipts: Receipts, effects: seq<Ref>, i: nat)
    requires ReceiptsOk(jobs, receipts) && EffectsOk(receipts, effects) && Distinct(jobs) && i < |jobs|
    requires ReceiptKey(jobs[i].owner.tenant, jobs[i].ref) !in receipts
    ensures jobs[i].ref !in effects
  {
  }

  lemma CommitReceipt(s: Sys, i: nat) returns (receipts': Receipts, effects': seq<Ref>)
    requires ReceiptsOk(s.q.jobs, s.receipts) && DoneOk(s.q.jobs, s.receipts) && EffectsOk(s.receipts, s.effects)
    requires Distinct(s.q.jobs) && i < |s.q.jobs| && s.q.jobs[i].frozen
    requires ReceiptKey(s.q.jobs[i].owner.tenant, s.q.jobs[i].ref) !in s.receipts
    ensures var j := s.q.jobs[i];
            && receipts' == s.receipts[ReceiptKey(j.owner.tenant, j.ref) := Window(j.owner, j.evidence)]
            && effects' == s.effects + [j.ref]
            && ReceiptsOk(s.q.jobs, receipts') && DoneOk(s.q.jobs, receipts') && EffectsOk(receipts', effects')
            && Done(receipts', j)
  {
    var j := s.q.jobs[i];
    var added := ReceiptKey(j.owner.tenant, j.ref);
    receipts', effects' := s.receipts[added := Window(j.owner, j.evidence)], s.effects + [j.ref];
    AbsentMeansNoEffect(s.q.jobs, s.receipts, s.effects, i);
    forall key | key in receipts'
      ensures exists k: nat :: FrozenAt(s.q.jobs, k, key.job, receipts'[key].evidence) && receipts'[key].owner == s.q.jobs[k].owner
                          && key.tenant == s.q.jobs[k].owner.tenant
    {
      if key == added {
        assert FrozenAt(s.q.jobs, i, key.job, receipts'[key].evidence);
      }
    }
    forall k | 0 <= k < |s.q.jobs| && !Open(s.q.jobs[k]) ensures Done(receipts', s.q.jobs[k]) {
      assert Done(s.receipts, s.q.jobs[k]);
    }
    forall ref | ref in effects' ensures exists key :: key in receipts' && key.job == ref {
      if ref in s.effects {
        var key :| key in s.receipts && key.job == ref;
        assert key in receipts';
      } else {
        assert added in receipts';
      }
    }
  }

  lemma ConsolidatePreserves(s: Sys, pid: nat, committing: bool)
    requires Inv(s) && pid in s.processors
    ensures Inv(Consolidate(s, pid, committing))
  {
    var p := s.processors[pid];
    assert ProgressOk(s.q.jobs, s.receipts, s.tokens, p);
    var i: nat :| FrozenAt(s.q.jobs, i, p.job, p.evidence);
    WindowOwnerIsJobOwner(s.q, i);
    LookUpNeverConflicts(s, i);
    var j := s.q.jobs[i];
    var key := ReceiptKey(j.owner.tenant, j.ref);
    if key !in s.receipts && committing {
      var receipts', effects' := CommitReceipt(s, i);
      var s' := s.(receipts := receipts', effects := effects', processors := s.processors[pid := Succeeded(p.job, p.evidence, p.token)]);
      assert Consolidate(s, pid, true) == s';
      CommittedProcessors(s, s', pid, i);
    } else {
      var next := if key !in s.receipts then Prepared(p.job, p.evidence, p.token) else Succeeded(p.job, p.evidence, p.token);
      var s' := s.(processors := s.processors[pid := next]);
      assert Consolidate(s, pid, committing) == s';
      ProcessorMoves(s, s', pid, i, next);
    }
  }

  lemma CommittedProcessors(s: Sys, s': Sys, pid: nat, i: nat)
    requires ProcessorsOk(s) && pid in s.processors && s'.q == s.q && s'.tokens == s.tokens
    requires FrozenAt(s.q.jobs, i, s.processors[pid].job, s.processors[pid].evidence)
    requires s'.processors == s.processors[pid := Succeeded(s.processors[pid].job, s.processors[pid].evidence, s.processors[pid].token)]
    requires forall key | key in s.receipts :: key in s'.receipts && s'.receipts[key] == s.receipts[key]
    requires Done(s'.receipts, s.q.jobs[i])
    ensures ProcessorsOk(s')
  {
    forall k | k in s'.processors ensures ProgressOk(s'.q.jobs, s'.receipts, s'.tokens, s'.processors[k]) {
      assert ProgressOk(s.q.jobs, s.receipts, s.tokens, s.processors[k]);
      if k == pid {
        assert FrozenAt(s'.q.jobs, i, s'.processors[k].job, s'.processors[k].evidence);
      } else {
        forall x | 0 <= x < |s.q.jobs| ensures Continues(s.q.jobs[x], s.q.jobs[x]) {
        }
        ProcessorGrows(s.q.jobs, s'.q.jobs, s.receipts, s'.receipts, s.tokens, s'.tokens, s.processors[k]);
      }
    }
  }

  lemma ProcessorMoves(s: Sys, s': Sys, pid: nat, i: nat, next: Progress)
    requires Inv(s) && pid in s.processors && s' == s.(processors := s.processors[pid := next])
    requires FrozenAt(s.q.jobs, i, next.job, next.evidence) && next.token == s.processors[pid].token
    requires !next.Conflicted? && (next.Succeeded? ==> Done(s.receipts, s.q.jobs[i]))
    ensures Inv(s')
  {
    assert ProgressOk(s.q.jobs, s.receipts, s.tokens, s.processors[pid]);
    assert ProgressOk(s.q.jobs, s.receipts, s.tokens, next);
    forall k | k in s'.processors ensures ProgressOk(s'.q.jobs, s'.receipts, s'.tokens, s'.processors[k]) {
      if k != pid {
        assert ProgressOk(s.q.jobs, s.receipts, s.tokens, s.processors[k]);
      }
    }
  }

  /* ---- every step, every run ---- */

  ghost predicate Kept(s: Sys, s': Sys) {
    Inv(s') && Grows(s.q.jobs, s'.q.jobs) && Forward(s.q.jobs, s'.q.jobs)
  }

  lemma IntakeStep(s: Sys, step: Step)
    requires Inv(s) && step.Intake? && Enabled(s, step)
    ensures Kept(s, Do(s, step))
  {
    var q', i := IntakePreserves(s.q, step.owner, step.episode, step.added, step.outcomes, step.ref, step.now);
    var s' := Do(s, step);
    assert s' == s.(q := q');
    JoinedTokens(s, q', i);
    QueueStepOk(s, s');
  }

  lemma JoinedTokens(s: Sys, q': Queue, i: nat)
    requires TokensOk(s.q.jobs, s.tokens) && DoneOk(s.q.jobs, s.receipts)
    requires i < |q'.jobs| <= |s.q.jobs| + 1 && !q'.jobs[i].frozen && Open(q'.jobs[i]) && QueueOk(q')
    requires forall k :: 0 <= k < |q'.jobs| && k != i ==> k < |s.q.jobs| && q'.jobs[k] == s.q.jobs[k]
    ensures TokensOk(q'.jobs, s.tokens) && DoneOk(q'.jobs, s.receipts)
  {
    assert JobOk(q'.episodes, q'.outcomes, q'.jobs[i]);
  }

  lemma LeaseStep(s: Sys, step: Step)
    requires Inv(s) && step.Lease? && Enabled(s, step)
    ensures Kept(s, Do(s, step))
  {
    var jobs', split := LeasePreserves(s.q, step.job, step.previous, step.request, step.now, step.token, step.remainder);
    var s' := Do(s, step);
    var leased := Leased(jobs'[step.job].ref, jobs'[step.job].evidence, step.token);
    assert s' == s.(q := s.q.(jobs := jobs'), tokens := s.tokens + {step.token}, processors := s.processors[step.pid := leased]);
    LeasedTokens(s.q.jobs, jobs', s.tokens, s.receipts, step.job, split, step.token);
    assert FrozenAt(jobs', step.job, leased.job, leased.evidence);
    assert ProgressOk(jobs', s'.receipts, s'.tokens, leased);
    QueueStepOk(s, s');
  }

  lemma LeasedTokens(jobs: seq<Job>, jobs': seq<Job>, tokens: set<Ref>, receipts: Receipts, i: nat, split: Split, token: Ref)
    requires TokensOk(jobs, tokens) && DoneOk(jobs, receipts) && LeasedRows(jobs, jobs', i, split, token)
    ensures TokensOk(jobs', tokens + {token}) && DoneOk(jobs', receipts)
  {
  }

  /** Completing under a live token: the processor had seen its receipt. */
  lemma CompleteStep(s: Sys, step: Step)
    requires Inv(s) && step.Complete? && Enabled(s, step)
    ensures Kept(s, Do(s, step))
  {
    var p := s.processors[step.pid];
    assert ProgressOk(s.q.jobs, s.receipts, s.tokens, p);
    CompletePreserves(s.q, p.job, p.token, step.now);
    var jobs' := CompleteJobs(s.q.jobs, p.job, p.token, step.now);
    CompletedDone(s.q.jobs, s.receipts, s.tokens, p, step.now);
    QueueStepOk(s, Do(s, step));
  }

  lemma CompletedDone(jobs: seq<Job>, receipts: Receipts, tokens: set<Ref>, p: Progress, now: int)
    requires Distinct(jobs) && DoneOk(jobs, receipts) && TokensOk(jobs, tokens) && p.Succeeded? && ProgressOk(jobs, receipts, tokens, p)
    ensures DoneOk(CompleteJobs(jobs, p.job, p.token, now), receipts) && TokensOk(CompleteJobs(jobs, p.job, p.token, now), tokens)
  {
    var i: nat :| FrozenAt(jobs, i, p.job, p.evidence) && Done(receipts, jobs[i]);
    var jobs' := CompleteJobs(jobs, p.job, p.token, now);
    forall k | 0 <= k < |jobs'| && !Open(jobs'[k]) ensures Done(receipts, jobs'[k]) {
      if Open(jobs[k]) {
        assert jobs[k].ref == jobs[i].ref;
        assert k == i;
      }
    }
  }

  lemma RetryStep(s: Sys, step: Step)
    requires Inv(s) && step.Retry? && Enabled(s, step)
    ensures Kept(s, Do(s, step))
  {
    var p := s.processors[step.pid];
    assert ProgressOk(s.q.jobs, s.receipts, s.tokens, p);
    RetryPreserves(s.q, p.job, p.token, step.notBefore, step.now);
    QueueStepOk(s, Do(s, step));
  }

  lemma SameJobs(jobs: seq<Job>)
    ensures Grows(jobs, jobs) && Forward(jobs, jobs)
  {
    ForwardPointwise(jobs, jobs);
  }

  lemma FailStep(s: Sys, step: Step)
    requires Inv(s) && step.Fail? && Enabled(s, step)
    ensures Kept(s, Do(s, step))
  {
    SameJobs(s.q.jobs);
    var p := s.processors[step.pid];
    assert ProgressOk(s.q.jobs, s.receipts, s.tokens, p);
    var i: nat :| FrozenAt(s.q.jobs, i, p.job, p.evidence);
    ProcessorMoves(s, Do(s, step), step.pid, i, Failed(p.job, p.evidence, p.token));
  }

  lemma EngineStep(s: Sys, step: Step)
    requires Inv(s) && (step.Snapshot? || step.Commit?) && Enabled(s, step)
    ensures Kept(s, Do(s, step))
  {
    ConsolidatePreserves(s, step.pid, step.Commit?);
    ConsolidateKeepsQueue(s, step.pid, step.Commit?);
    KeptSameQueue(s, Consolidate(s, step.pid, step.Commit?));
  }

  lemma ConsolidateKeepsQueue(s: Sys, pid: nat, committing: bool)
    requires pid in s.processors
    ensures Consolidate(s, pid, committing).q == s.q
  {
  }

  lemma KeptSameQueue(s: Sys, s': Sys)
    requires Inv(s') && s'.q == s.q
    ensures Kept(s, s')
  {
    SameJobs(s.q.jobs);
  }

  lemma CrashStep(s: Sys, step: Step)
    requires Inv(s) && step.Crash? && Enabled(s, step)
    ensures Kept(s, Do(s, step))
  {
    SameJobs(s.q.jobs);
    QueueStepOk(s, Do(s, step));
  }

  lemma StepPreserves(s: Sys, step: Step)
    requires Inv(s) && Enabled(s, step)
    ensures Kept(s, Do(s, step))
  {
    match step
    case Intake(_, _, _, _, _, _) => IntakeStep(s, step);
    case Lease(_, _, _, _, _, _, _) => LeaseStep(s, step);
    case Snapshot(_) => EngineStep(s, step);
    case Commit(_) => EngineStep(s, step);
    case Fail(_) => FailStep(s, step);
    case Complete(_, _) => CompleteStep(s, step);
    case Retry(_, _, _) => RetryStep(s, step);
    case Crash(_) => CrashStep(s, step);
  }

  lemma {:induction false} RunPreserves(s: Sys, steps: seq<Step>, s': Sys)
    requires Inv(s) && Runs(s, steps, s')
    ensures Inv(s') && Grows(s.q.jobs, s'.q.jobs) && Forward(s.q.jobs, s'.q.jobs)
    decreases |steps|
  {
    if steps == [] {
      SameJobs(s.q.jobs);
    } else {
      var m := Do(s, steps[0]);
      StepPreserves(s, steps[0]);
      RunPreserves(m, steps[1..], s');
      GrowsTransitive(s.q.jobs, m.q.jobs, s'.q.jobs);
      ForwardTransitive(s.q.jobs, m.q.jobs, s'.q.jobs);
    }
  }
}
