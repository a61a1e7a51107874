/** What holds of the Job queue in every reachable state and over every run. */
module JobTheorems {
  import opened Refs
  import opened JobWindows
  import opened JobModel
  import opened JobSafety

  lemma ReachableInv(s: Sys)
    requires Reachable(s)
    ensures Inv(s)
  {
    InitOk();
    var steps :| Runs(Init(), steps, s);
    RunPreserves(Init(), steps, s);
  }

  /* ---- exactly-once effects ---- */

  /** Each window took effect at most once; effects, receipts and frozen Jobs
      agree; no processor ever met ErrWindowConflict. */
  lemma EffectsExactlyOnce(s: Sys)
    requires Reachable(s)
    ensures Unique(s.effects)
    ensures forall i :: 0 <= i < |s.q.jobs| ==> (s.q.jobs[i].ref in s.effects <==> Done(s.receipts, s.q.jobs[i]))
    ensures forall i :: 0 <= i < |s.q.jobs| && !Open(s.q.jobs[i]) ==> s.q.jobs[i].ref in s.effects
    ensures forall key | key in s.receipts ::
              exists i: nat :: FrozenAt(s.q.jobs, i, key.job, s.receipts[key].evidence) && Done(s.receipts, s.q.jobs[i])
    ensures forall pid | pid in s.processors :: !s.processors[pid].Conflicted?
  {
    ReachableInv(s);
    forall i | 0 <= i < |s.q.jobs| ensures s.q.jobs[i].ref in s.effects <==> Done(s.receipts, s.q.jobs[i]) {
      EffectMeansDone(s.q.jobs, s.receipts, s.effects, i);
    }
    forall i | 0 <= i < |s.q.jobs| && !Open(s.q.jobs[i]) ensures s.q.jobs[i].ref in s.effects {
      assert Done(s.receipts, s.q.jobs[i]);
    }
    forall key | key in s.receipts
      ensures exists i: nat :: FrozenAt(s.q.jobs, i, key.job, s.receipts[key].evidence) && Done(s.receipts, s.q.jobs[i])
    {
      var i: nat :| FrozenAt(s.q.jobs, i, key.job, s.receipts[key].evidence) && s.receipts[key].owner == s.q.jobs[i].owner
               && key.tenant == s.q.jobs[i].owner.tenant;
      assert key == ReceiptKey(s.q.jobs[i].owner.tenant, s.q.jobs[i].ref);
    }
    forall pid | pid in s.processors ensures !s.processors[pid].Conflicted? {
      assert ProgressOk(s.q.jobs, s.receipts, s.tokens, s.processors[pid]);
    }
  }

  lemma EffectMeansDone(jobs: seq<Job>, receipts: Receipts, effects: seq<Ref>, i: nat)
    requires Distinct(jobs) && ReceiptsOk(jobs, receipts) && EffectsOk(receipts, effects) && i < |jobs|
    ensures jobs[i].ref in effects <==> Done(receipts, jobs[i])
  {
    if jobs[i].ref in effects {
      var key :| key in receipts && key.job == jobs[i].ref;
      var k: nat :| FrozenAt(jobs, k, key.job, receipts[key].evidence) && receipts[key].owner == jobs[k].owner
               && key.tenant == jobs[k].owner.tenant;
      assert k == i;
      assert key == ReceiptKey(jobs[i].owner.tenant, jobs[i].ref);
    }
  }

  /** A receipt, once frozen, is the same in every later state. */
  lemma {:induction false} ReceiptsAreFrozen(s: Sys, steps: seq<Step>, s': Sys, key: ReceiptKey)
    requires Runs(s, steps, s') && key in s.receipts
    ensures key in s'.receipts && s'.receipts[key] == s.receipts[key]
    decreases |steps|
  {
    if steps != [] {
      ReceiptsStep(s, steps[0], key);
      ReceiptsAreFrozen(Do(s, steps[0]), steps[1..], s', key);
    }
  }

  lemma ReceiptsStep(s: Sys, step: Step, key: ReceiptKey)
    requires Enabled(s, step) && key in s.receipts
    ensures key in Do(s, step).receipts && Do(s, step).receipts[key] == s.receipts[key]
  {
    if step.Snapshot? || step.Commit? {
      ConsolidateKeepsReceipts(s, step.pid, step.Commit?, key);
    }
  }

  lemma ConsolidateKeepsReceipts(s: Sys, pid: nat, committing: bool, key: ReceiptKey)
    requires pid in s.processors && key in s.receipts
    ensures key in Consolidate(s, pid, committing).receipts && Consolidate(s, pid, committing).receipts[key] == s.receipts[key]
  {
  }

  /** Effects of one owner happened in job_order. */
  predicate InOrder(jobs: seq<Job>, effects: seq<Ref>) {
    forall a, b, i, j | 0 <= a < b < |effects| && 0 <= i < |jobs| && 0 <= j < |jobs|
        && jobs[i].ref == effects[a] && jobs[j].ref == effects[b] && jobs[i].owner == jobs[j].owner
      :: i < j
  }

  lemma {:induction false} EffectsInJobOrder(s: Sys, steps: seq<Step>, s': Sys)
    requires Inv(s) && InOrder(s.q.jobs, s.effects) && Runs(s, steps, s')
    ensures InOrder(s'.q.jobs, s'.effects)
    decreases |steps|
  {
    if steps != [] {
      StepPreserves(s, steps[0]);
      OrderStep(s, steps[0]);
      EffectsInJobOrder(Do(s, steps[0]), steps[1..], s');
    }
  }

  lemma ReachableInOrder(s: Sys)
    requires Reachable(s)
    ensures InOrder(s.q.jobs, s.effects)
  {
    InitOk();
    var steps :| Runs(Init(), steps, s);
    EffectsInJobOrder(Init(), steps, s);
  }

  lemma OrderStep(s: Sys, step: Step)
    requires Inv(s) && InOrder(s.q.jobs, s.effects) && Enabled(s, step) && Inv(Do(s, step)) && Grows(s.q.jobs, Do(s, step).q.jobs)
    ensures InOrder(Do(s, step).q.jobs, Do(s, step).effects)
  {
    if step.Snapshot? || step.Commit? {
      OrderEngine(s, step.pid, step.Commit?);
    } else {
      EffectsUntouched(s, step);
      OrderQuiet(s, Do(s, step));
    }
  }

  lemma EffectsUntouched(s: Sys, step: Step)
    requires Enabled(s, step) && !step.Snapshot? && !step.Commit?
    ensures Do(s, step).effects == s.effects
  {
  }

  lemma OrderQuiet(s: Sys, s': Sys)
    requires Inv(s) && InOrder(s.q.jobs, s.effects) && Grows(s.q.jobs, s'.q.jobs) && Distinct(s'.q.jobs) && s'.effects == s.effects
    ensures InOrder(s'.q.jobs, s'.effects)
  {
    OrderGrows(s.q.jobs, s.receipts, s.effects, s'.q.jobs);
  }

  lemma OrderEngine(s: Sys, pid: nat, committing: bool)
    requires Inv(s) && InOrder(s.q.jobs, s.effects) && pid in s.processors && Unique(Consolidate(s, pid, committing).effects)
    ensures InOrder(Consolidate(s, pid, committing).q.jobs, Consolidate(s, pid, committing).effects)
  {
    ConsolidateEffects(s, pid, committing);
    var p := s.processors[pid];
    if Unique(s.effects + [p.job]) {
      NotYetThere(s.effects, p.job);
      OrderCommit(s.q.jobs, s.receipts, s.effects, p.job);
    }
  }

  lemma NotYetThere(s: seq<Ref>, ref: Ref)
    requires Unique(s + [ref])
    ensures ref !in s
  {
    forall i | 0 <= i < |s| ensures s[i] != ref {
      assert (s + [ref])[i] != (s + [ref])[|s|];
    }
  }

  lemma ConsolidateEffects(s: Sys, pid: nat, committing: bool)
    requires pid in s.processors
    ensures var s' := Consolidate(s, pid, committing);
            && s'.q == s.q
            && (s'.effects == s.effects
                || s'.effects == s.effects + [s.processors[pid].job])
  {
  }

  lemma OrderGrows(jobs: seq<Job>, receipts: Receipts, effects: seq<Ref>, jobs': seq<Job>)
    requires ReceiptsOk(jobs, receipts) && EffectsOk(receipts, effects) && InOrder(jobs, effects) && Grows(jobs, jobs') && Distinct(jobs')
    ensures InOrder(jobs', effects)
  {
    forall a, b, i, j | 0 <= a < b < |effects| && 0 <= i < |jobs'| && 0 <= j < |jobs'|
        && jobs'[i].ref == effects[a] && jobs'[j].ref == effects[b] && jobs'[i].owner == jobs'[j].owner
      ensures i < j
    {
      EffectIsOld(jobs, receipts, effects, jobs', a, i);
      EffectIsOld(jobs, receipts, effects, jobs', b, j);
    }
  }

  /** A Job that had an effect was in the queue already, under the same number. */
  lemma EffectIsOld(jobs: seq<Job>, receipts: Receipts, effects: seq<Ref>, jobs': seq<Job>, a: nat, i: nat)
    requires ReceiptsOk(jobs, receipts) && EffectsOk(receipts, effects) && Grows(jobs, jobs') && Distinct(jobs')
    requires a < |effects| && i < |jobs'| && jobs'[i].ref == effects[a]
    ensures i < |jobs| && jobs[i].ref == jobs'[i].ref && jobs[i].owner == jobs'[i].owner
  {
    assert effects[a] in effects;
    var x := EffectHasJob(jobs, receipts, effects, effects[a]);
    assert Continues(jobs[x], jobs'[x]);
    assert x == i;
  }

  lemma EffectHasJob(jobs: seq<Job>, receipts: Receipts, effects: seq<Ref>, ref: Ref) returns (i: nat)
    requires ReceiptsOk(jobs, receipts) && EffectsOk(receipts, effects) && ref in effects
    ensures i < |jobs| && jobs[i].ref == ref && jobs[i].frozen
  {
    var key :| key in receipts && key.job == ref;
    i :| FrozenAt(jobs, i, key.job, receipts[key].evidence);
  }

  lemma OrderCommit(jobs: seq<Job>, receipts: Receipts, effects: seq<Ref>, ref: Ref)
    requires Ordered(jobs) && Distinct(jobs) && ReceiptsOk(jobs, receipts) && EffectsOk(receipts, effects) && DoneOk(jobs, receipts)
    requires InOrder(jobs, effects) && ref !in effects
    ensures InOrder(jobs, effects + [ref])
  {
    EffectsMatch(jobs, receipts, effects);
    OrderAppend(jobs, effects, ref);
  }

  lemma EffectsMatch(jobs: seq<Job>, receipts: Receipts, effects: seq<Ref>)
    requires Distinct(jobs) && ReceiptsOk(jobs, receipts) && EffectsOk(receipts, effects) && DoneOk(jobs, receipts)
    ensures forall i :: 0 <= i < |jobs| && jobs[i].ref in effects ==> jobs[i].frozen
    ensures forall i :: 0 <= i < |jobs| && !Open(jobs[i]) ==> jobs[i].ref in effects
  {
    forall i | 0 <= i < |jobs| && jobs[i].ref in effects ensures jobs[i].frozen {
      EffectIsFrozen(jobs, receipts, effects, i);
    }
    forall i | 0 <= i < |jobs| && !Open(jobs[i]) ensures jobs[i].ref in effects {
      assert Done(receipts, jobs[i]);
    }
  }

  lemma EffectIsFrozen(jobs: seq<Job>, receipts: Receipts, effects: seq<Ref>, i: nat)
    requires Distinct(jobs) && ReceiptsOk(jobs, receipts) && EffectsOk(receipts, effects) && i < |jobs| && jobs[i].ref in effects
    ensures jobs[i].frozen
  {
    var x := EffectHasJob(jobs, receipts, effects, jobs[i].ref);
    assert x == i;
  }

  /** A new effect comes after those of all earlier Jobs of its owner: a frozen Job
      has only completed ones before it. */
  lemma OrderAppend(jobs: seq<Job>, effects: seq<Ref>, ref: Ref)
    requires Ordered(jobs) && Distinct(jobs) && InOrder(jobs, effects) && ref !in effects
    requires forall i :: 0 <= i < |jobs| && jobs[i].ref in effects ==> jobs[i].frozen
    requires forall i :: 0 <= i < |jobs| && !Open(jobs[i]) ==> jobs[i].ref in effects
    ensures InOrder(jobs, effects + [ref])
  {
    var effects', n := effects + [ref], |effects|;
    forall a, b, i, j | 0 <= a < b < |effects'| && 0 <= i < |jobs| && 0 <= j < |jobs|
        && jobs[i].ref == effects'[a] && jobs[j].ref == effects'[b] && jobs[i].owner == jobs[j].owner
      ensures i < j
    {
      assert a < n && effects'[a] == effects[a] && effects[a] in effects;
      assert b < n ==> effects'[b] == effects[b];
    }
  }

  /* ---- first in, first out; frozen windows; lease tokens ---- */

  /** One owner has at most one collecting Job and at most one frozen open Job,
      and the frozen one is earlier; Jobs complete in job_order. */
  lemma OneCollectingOneFrozen(s: Sys, i: nat, j: nat)
    requires Reachable(s) && i < j < |s.q.jobs| && s.q.jobs[i].owner == s.q.jobs[j].owner
    ensures !Open(s.q.jobs[j]) ==> !Open(s.q.jobs[i])
    ensures Open(s.q.jobs[i]) && Open(s.q.jobs[j]) ==> s.q.jobs[i].frozen && !s.q.jobs[j].frozen
    ensures s.q.jobs[j].token != "" ==> !Open(s.q.jobs[i])
  {
    ReachableInv(s);
    assert JobOk(s.q.episodes, s.q.outcomes, s.q.jobs[j]);
  }

  /** A frozen window is identical across all retries and every later state, and
      a processor works on exactly that window. */
  lemma FrozenForever(s: Sys, steps: seq<Step>, s': Sys, i: nat)
    requires Reachable(s) && Runs(s, steps, s') && i < |s.q.jobs| && s.q.jobs[i].frozen
    ensures i < |s'.q.jobs| && s'.q.jobs[i].frozen && s'.q.jobs[i].evidence == s.q.jobs[i].evidence
    ensures s'.q.jobs[i].ref == s.q.jobs[i].ref && s'.q.jobs[i].owner == s.q.jobs[i].owner
    ensures forall pid | pid in s'.processors && s'.processors[pid].job == s.q.jobs[i].ref ::
              s'.processors[pid].evidence == s.q.jobs[i].evidence
  {
    ReachableInv(s);
    RunPreserves(s, steps, s');
    assert Continues(s.q.jobs[i], s'.q.jobs[i]);
    forall pid | pid in s'.processors && s'.processors[pid].job == s.q.jobs[i].ref
      ensures s'.processors[pid].evidence == s.q.jobs[i].evidence
    {
      var p := s'.processors[pid];
      assert ProgressOk(s'.q.jobs, s'.receipts, s'.tokens, p);
      var k: nat :| FrozenAt(s'.q.jobs, k, p.job, p.evidence);
      assert k == i;
    }
  }

  /** The token was handed out and the Job no longer carries it. */
  predicate Superseded(s: Sys, job: Ref, token: Ref) {
    token in s.tokens && token != "" && forall i :: 0 <= i < |s.q.jobs| && s.q.jobs[i].ref == job ==> s.q.jobs[i].token != token
  }

  lemma SupersededStep(s: Sys, step: Step, job: Ref, token: Ref)
    requires Superseded(s, job, token) && Enabled(s, step)
    ensures Superseded(Do(s, step), job, token)
  {
    match step
    case Intake(_, _, _, _, _, _) => SupersededIntake(s, step, job, token);
    case Lease(_, _, _, _, _, _, _) => SupersededLease(s, step, job, token);
    case Snapshot(pid) => ConsolidateKeepsQueue(s, pid, false); ConsolidateKeepsTokens(s, pid, false);
    case Commit(pid) => ConsolidateKeepsQueue(s, pid, true); ConsolidateKeepsTokens(s, pid, true);
    case Fail(_) =>
    case Complete(_, _) =>
    case Retry(_, _, _) =>
    case Crash(_) =>
  }

  lemma SupersededIntake(s: Sys, step: Step, job: Ref, token: Ref)
    requires Superseded(s, job, token) && step.Intake? && Enabled(s, step)
    ensures Superseded(Do(s, step), job, token)
  {
  }

  lemma SupersededLease(s: Sys, step: Step, job: Ref, token: Ref)
    requires Superseded(s, job, token) && step.Lease? && Enabled(s, step)
    ensures Superseded(Do(s, step), job, token)
  {
  }

  lemma ConsolidateKeepsTokens(s: Sys, pid: nat, committing: bool)
    requires pid in s.processors
    ensures Consolidate(s, pid, committing).tokens == s.tokens
  {
  }

  /** A superseded lease token can neither complete nor release its Job, now or
      in any later state. */
  lemma {:induction false} SupersededForever(s: Sys, steps: seq<Step>, s': Sys, job: Ref, token: Ref, now: int, notBefore: int)
    requires Superseded(s, job, token) && Runs(s, steps, s')
    ensures CompleteJobs(s'.q.jobs, job, token, now) == s'.q.jobs
    ensures RetryJobs(s'.q.jobs, job, token, notBefore, now) == s'.q.jobs
    decreases |steps|
  {
    if steps == [] {
      assert forall i :: 0 <= i < |s.q.jobs| ==> !Matches(s.q.jobs[i], job, token);
    } else {
      SupersededStep(s, steps[0], job, token);
      SupersededForever(Do(s, steps[0]), steps[1..], s', job, token, now, notBefore);
    }
  }

  /** Leasing a Job again supersedes the token it carried; so do completing and
      releasing it. */
  lemma LeaseSupersedes(s: Sys, step: Step)
    requires Reachable(s) && step.Lease? && Enabled(s, step) && s.q.jobs[step.job].token != ""
    ensures Superseded(Do(s, step), s.q.jobs[step.job].ref, s.q.jobs[step.job].token)
  {
    ReachableInv(s);
    var jobs', split := LeasePreserves(s.q, step.job, step.previous, step.request, step.now, step.token, step.remainder);
    assert Do(s, step).q.jobs == jobs';
  }

  lemma SettlingSupersedes(s: Sys, step: Step)
    requires Reachable(s) && (step.Complete? || step.Retry?) && Enabled(s, step)
    ensures Superseded(Do(s, step), s.processors[step.pid].job, s.processors[step.pid].token)
  {
    ReachableInv(s);
    assert ProgressOk(s.q.jobs, s.receipts, s.tokens, s.processors[step.pid]);
    LeasedAreOpen(s.q);
    if step.Complete? {
      CompleteSupersedes(s, step);
    } else {
      ReleaseSupersedes(s, step);
    }
  }

  predicate LeasesOpen(jobs: seq<Job>) {
    forall i :: 0 <= i < |jobs| && jobs[i].token != "" ==> Open(jobs[i])
  }

  lemma CompleteSupersedes(s: Sys, step: Step)
    requires step.Complete? && Enabled(s, step) && LeasesOpen(s.q.jobs)
    requires s.processors[step.pid].token != "" && s.processors[step.pid].token in s.tokens
    ensures Superseded(Do(s, step), s.processors[step.pid].job, s.processors[step.pid].token)
  {
    var p := s.processors[step.pid];
    SettledRows(s.q.jobs, CompleteJobs(s.q.jobs, p.job, p.token, step.now), p.job, p.token);
  }

  lemma ReleaseSupersedes(s: Sys, step: Step)
    requires step.Retry? && Enabled(s, step) && LeasesOpen(s.q.jobs)
    requires s.processors[step.pid].token != "" && s.processors[step.pid].token in s.tokens
    ensures Superseded(Do(s, step), s.processors[step.pid].job, s.processors[step.pid].token)
  {
    var p := s.processors[step.pid];
    SettledRows(s.q.jobs, RetryJobs(s.q.jobs, p.job, p.token, step.notBefore, step.now), p.job, p.token);
  }

  lemma LeasedAreOpen(q: Queue)
    requires JobsOk(q.episodes, q.outcomes, q.jobs)
    ensures LeasesOpen(q.jobs)
  {
    forall i | 0 <= i < |q.jobs| && q.jobs[i].token != "" ensures Open(q.jobs[i]) {
      assert JobOk(q.episodes, q.outcomes, q.jobs[i]);
    }
  }

  lemma SettledRows(jobs: seq<Job>, jobs': seq<Job>, job: Ref, token: Ref)
    requires |jobs'| == |jobs| && token != "" && LeasesOpen(jobs)
    requires forall i :: 0 <= i < |jobs| ==>
               if Matches(jobs[i], job, token) then jobs'[i].ref == jobs[i].ref && jobs'[i].token == "" else jobs'[i] == jobs[i]
    ensures forall i :: 0 <= i < |jobs'| && jobs'[i].ref == job ==> jobs'[i].token != token
  {
  }

  /* ---- evidence conservation ---- */

  /** Every recorded Episode and Outcome is in a Job of its owner, every Outcome
      beside its own Episode. */
  lemma EvidenceIsConserved(s: Sys)
    requires Reachable(s)
    ensures Conserved(s.q)
    ensures forall i :: 0 <= i < |s.q.jobs| ==>
              Beside(s.q.outcomes, s.q.jobs[i].owner, s.q.jobs[i].evidence.episodes, s.q.jobs[i].evidence.outcomes)
  {
    ReachableInv(s);
    forall i | 0 <= i < |s.q.jobs|
      ensures Beside(s.q.outcomes, s.q.jobs[i].owner, s.q.jobs[i].evidence.episodes, s.q.jobs[i].evidence.outcomes)
    {
      assert JobOk(s.q.episodes, s.q.outcomes, s.q.jobs[i]);
    }
  }

  /** Evidence in a Job stays there or moves to a later Job of the same owner: each
      Episode, and each Outcome. */
  lemma EvidenceOnlyMovesForward(s: Sys, steps: seq<Step>, s': Sys, i: nat)
    requires Reachable(s) && Runs(s, steps, s') && i < |s.q.jobs|
    ensures forall e | e in s.q.jobs[i].evidence.episodes :: exists k :: k >= i && HoldsEpisode(s'.q.jobs, k, s.q.jobs[i].owner, e)
    ensures forall o | o in s.q.jobs[i].evidence.outcomes :: exists k :: k >= i && HoldsOutcome(s'.q.jobs, k, s.q.jobs[i].owner, o)
  {
    ReachableInv(s);
    RunPreserves(s, steps, s');
    MovesForward(s.q.jobs, s'.q.jobs, i);
  }

  lemma MovesForward(jobs: seq<Job>, jobs': seq<Job>, i: nat)
    requires Forward(jobs, jobs') && i < |jobs|
    ensures forall e | e in jobs[i].evidence.episodes :: exists k :: k >= i && HoldsEpisode(jobs', k, jobs[i].owner, e)
    ensures forall o | o in jobs[i].evidence.outcomes :: exists k :: k >= i && HoldsOutcome(jobs', k, jobs[i].owner, o)
  {
    forall e | e in jobs[i].evidence.episodes ensures exists k :: k >= i && HoldsEpisode(jobs', k, jobs[i].owner, e) {
      assert HoldsEpisode(jobs, i, jobs[i].owner, e);
    }
    forall o | o in jobs[i].evidence.outcomes ensures exists k :: k >= i && HoldsOutcome(jobs', k, jobs[i].owner, o) {
      assert HoldsOutcome(jobs, i, jobs[i].owner, o);
    }
  }

  predicate DrainedFor(jobs: seq<Job>, owner: Owner) {
    forall i :: 0 <= i < |jobs| && jobs[i].owner == owner ==> !Open(jobs[i])
  }

  ghost predicate InReceipt(s: Sys, i: nat) {
    i < |s.q.jobs| && Done(s.receipts, s.q.jobs[i]) && s.q.jobs[i].ref in s.effects
  }

  /** Once an owner has no open Job, each of its Episodes and Outcomes lies in a
      window whose effects were committed. */
  lemma DrainedMeansConsolidated(s: Sys, owner: Owner)
    requires Reachable(s) && DrainedFor(s.q.jobs, owner)
    ensures forall e | e in s.q.episodes && s.q.episodes[e] == owner ::
              exists i: nat :: InReceipt(s, i) && e in s.q.jobs[i].evidence.episodes
    ensures forall o | o in s.q.outcomes && s.q.outcomes[o].owner == owner ::
              exists i: nat :: InReceipt(s, i) && o in s.q.jobs[i].evidence.outcomes && s.q.outcomes[o].episode in s.q.jobs[i].evidence.episodes
  {
    EvidenceIsConserved(s);
    EffectsExactlyOnce(s);
    ReachableInv(s);
    forall i: nat | i < |s.q.jobs| && s.q.jobs[i].owner == owner ensures InReceipt(s, i) {
      assert Done(s.receipts, s.q.jobs[i]);
    }
    HeldInReceipts(s, owner);
  }

  lemma HeldInReceipts(s: Sys, owner: Owner)
    requires Conserved(s.q) && JobsOk(s.q.episodes, s.q.outcomes, s.q.jobs)
    requires forall i: nat | i < |s.q.jobs| && s.q.jobs[i].owner == owner :: InReceipt(s, i)
    ensures forall e | e in s.q.episodes && s.q.episodes[e] == owner ::
              exists i: nat :: InReceipt(s, i) && e in s.q.jobs[i].evidence.episodes
    ensures forall o | o in s.q.outcomes && s.q.outcomes[o].owner == owner ::
              exists i: nat :: InReceipt(s, i) && o in s.q.jobs[i].evidence.outcomes && s.q.outcomes[o].episode in s.q.jobs[i].evidence.episodes
  {
    forall e | e in s.q.episodes && s.q.episodes[e] == owner
      ensures exists i: nat :: InReceipt(s, i) && e in s.q.jobs[i].evidence.episodes
    {
      var i: nat :| HoldsEpisode(s.q.jobs, i, owner, e);
      assert InReceipt(s, i);
    }
    forall o | o in s.q.outcomes && s.q.outcomes[o].owner == owner
      ensures exists i: nat :: InReceipt(s, i) && o in s.q.jobs[i].evidence.outcomes && s.q.outcomes[o].episode in s.q.jobs[i].evidence.episodes
    {
      var i: nat :| HoldsOutcome(s.q.jobs, i, owner, o);
      assert InReceipt(s, i);
      assert JobOk(s.q.episodes, s.q.outcomes, s.q.jobs[i]);
    }
  }

  /** On a reachable queue neither the enqueue's constraint nor the lease's
      partition checks can fail. */
  lemma QueueStepsNeverFail(s: Sys)
    requires Reachable(s)
    ensures forall owner, episode, added, outs, ref, now :: IntakeEnabled(s.q, owner, episode, added, outs, ref) ==>
              Enqueue(s.q.jobs, owner, [episode], outs, ref, now).Some?
    ensures forall i, previous, r, now, token, remainder :: LeaseEnabled(s.q, i, previous, r, now, token, remainder) ==>
              LeaseJobs(s.q, i, previous, r, now, token, remainder).Some?
  {
    ReachableInv(s);
    forall owner, episode, added, outs, ref, now | IntakeEnabled(s.q, owner, episode, added, outs, ref)
      ensures Enqueue(s.q.jobs, owner, [episode], outs, ref, now).Some?
    {
      var _, _, _ := IntakeJoins(s.q, owner, episode, added, outs, ref, now);
    }
    forall i, previous, r, now, token, remainder | LeaseEnabled(s.q, i, previous, r, now, token, remainder)
      ensures LeaseJobs(s.q, i, previous, r, now, token, remainder).Some?
    {
      var _ := LeaseSplits(s.q, i, previous, r, now, token, remainder);
    }
  }

  /* ---- draining ---- */

  function Backlog(jobs: seq<Job>, owner: Owner): nat {
    var i := FindCollecting(jobs, owner);
    if i < 0 then 0 else |jobs[i].evidence.episodes|
  }

  ghost predicate Freezes(s: Sys, step: Step, owner: Owner)
    requires Enabled(s, step)
  {
    step.Lease? && s.q.jobs[step.job].owner == owner && !s.q.jobs[step.job].frozen
  }

  /** How many windows of the owner a run freezes. */
  ghost function FreezeCount(s: Sys, steps: seq<Step>, owner: Owner): nat
    decreases |steps|
  {
    if steps == [] || !Enabled(s, steps[0]) then 0
    else FreezesOne(s, steps[0], owner) + FreezeCount(Do(s, steps[0]), steps[1..], owner)
  }

  /** No new evidence for the owner, and every lease advances by at least `d`. */
  predicate Draining(step: Step, owner: Owner, d: int) {
    && (step.Intake? ==> step.owner != owner)
    && (step.Lease? ==> step.request.max - Clamp(step.request.max, step.request.overlap) >= d)
  }

  /** How many windows of `d` new Episodes cover `n`. */
  function Windows(n: nat, d: int): nat
    requires d >= 1
    decreases n
  {
    if n == 0 then 0 else if n <= d then 1 else 1 + Windows(n - d, d)
  }

  /** `w` is n / d rounded up. */
  predicate RoundedUp(w: nat, n: nat, d: int) {
    n <= w * d && (w > 0 ==> (w - 1) * d < n)
  }

  lemma {:induction false} WindowsIsCeiling(n: nat, d: int)
    requires d >= 1
    ensures RoundedUp(Windows(n, d), n, d)
    decreases n
  {
    if n > d {
      WindowsIsCeiling(n - d, d);
      assert Windows(n, d) * d == Windows(n - d, d) * d + d;
      assert (Windows(n, d) - 1) * d == (Windows(n - d, d) - 1) * d + d;
    }
  }

  lemma {:induction false} WindowsStep(n: nat, m: nat, d: int)
    requires d >= 1 && n >= 1 && (m == 0 || m + d <= n)
    ensures 1 + Windows(m, d) <= Windows(n, d)
    decreases n
  {
    if m > 0 {
      WindowsMonotone(m, n - d, d);
    }
  }

  lemma {:induction false} WindowsMonotone(m: nat, n: nat, d: int)
    requires d >= 1 && m <= n
    ensures Windows(m, d) <= Windows(n, d)
    decreases n
  {
    if m > d {
      WindowsMonotone(m - d, n - d, d);
    }
  }

  lemma BacklogIs(jobs: seq<Job>, owner: Owner, i: nat)
    requires Ordered(jobs) && i < |jobs| && Collecting(jobs[i], owner)
    ensures Backlog(jobs, owner) == |jobs[i].evidence.episodes|
  {
    CollectingIsUnique(jobs, owner, i, FindCollecting(jobs, owner));
  }

  lemma SameBacklog(jobs: seq<Job>, jobs': seq<Job>, owner: Owner)
    requires Ordered(jobs) && Ordered(jobs') && |jobs| <= |jobs'|
    requires forall i :: 0 <= i < |jobs'| && Collecting(jobs'[i], owner) ==>
               i < |jobs| && Collecting(jobs[i], owner) && jobs'[i].evidence == jobs[i].evidence
    requires forall i :: 0 <= i < |jobs| && Collecting(jobs[i], owner) ==> Collecting(jobs'[i], owner)
    ensures Backlog(jobs', owner) == Backlog(jobs, owner)
  {
    var i := FindCollecting(jobs', owner);
    if i >= 0 {
      BacklogIs(jobs, owner, i);
    } else {
      assert FindCollecting(jobs, owner) < 0;
    }
  }

  /** A freeze leaves nothing collecting, or at least `d` Episodes fewer. */
  lemma FreezeShrinks(q: Queue, jobs': seq<Job>, i: nat, split: Split, token: Ref, r: Request, d: int)
    requires JobsOk(q.episodes, q.outcomes, q.jobs) && Ordered(q.jobs) && Ordered(jobs')
    requires LeasedRows(q.jobs, jobs', i, split, token) && !q.jobs[i].frozen
    requires FreezeOk(q.outcomes, q.jobs[i].owner, q.jobs[i].evidence, r.max, r.overlap, split)
    requires r.max - Clamp(r.max, r.overlap) >= d
    ensures var owner := q.jobs[i].owner;
            Backlog(q.jobs, owner) >= 1 && (Backlog(jobs', owner) == 0 || Backlog(jobs', owner) + d <= Backlog(q.jobs, owner))
  {
    var owner := q.jobs[i].owner;
    assert JobOk(q.episodes, q.outcomes, q.jobs[i]);
    BacklogIs(q.jobs, owner, i);
    if split.rest.episodes != [] {
      BacklogIs(jobs', owner, |q.jobs|);
    } else {
      assert forall k :: 0 <= k < |jobs'| ==> !Collecting(jobs'[k], owner);
    }
  }

  lemma LeaseResult(s: Sys, step: Step) returns (jobs': seq<Job>, split: Split)
    requires Inv(s) && step.Lease? && Enabled(s, step)
    ensures Do(s, step).q.jobs == jobs' && LeasedRows(s.q.jobs, jobs', step.job, split, step.token) && Ordered(jobs')
    ensures !s.q.jobs[step.job].frozen ==>
              FreezeOk(s.q.outcomes, s.q.jobs[step.job].owner, s.q.jobs[step.job].evidence, step.request.max, step.request.overlap, split)
  {
    jobs', split := LeasePreserves(s.q, step.job, step.previous, step.request, step.now, step.token, step.remainder);
  }

  ghost predicate Shrinks(before: nat, after: nat, freezes: bool, d: int) {
    if freezes then before >= 1 && (after == 0 || after + d <= before) else after == before
  }

  lemma LeaseBacklog(s: Sys, step: Step, owner: Owner, d: int)
    requires Inv(s) && step.Lease? && Enabled(s, step) && Draining(step, owner, d)
    ensures Shrinks(Backlog(s.q.jobs, owner), Backlog(Do(s, step).q.jobs, owner), Freezes(s, step, owner), d)
  {
    var jobs', split := LeaseResult(s, step);
    LeasedBacklog(s.q, jobs', step.job, split, step.token, step.request, owner, d);
  }

  lemma LeasedBacklog(q: Queue, jobs': seq<Job>, i: nat, split: Split, token: Ref, r: Request, owner: Owner, d: int)
    requires JobsOk(q.episodes, q.outcomes, q.jobs) && Ordered(q.jobs) && Ordered(jobs') && LeasedRows(q.jobs, jobs', i, split, token)
    requires !q.jobs[i].frozen ==> FreezeOk(q.outcomes, q.jobs[i].owner, q.jobs[i].evidence, r.max, r.overlap, split)
    requires r.max - Clamp(r.max, r.overlap) >= d
    ensures Shrinks(Backlog(q.jobs, owner), Backlog(jobs', owner), q.jobs[i].owner == owner && !q.jobs[i].frozen, d)
  {
    if q.jobs[i].owner == owner && !q.jobs[i].frozen {
      FreezeShrinks(q, jobs', i, split, token, r, d);
    } else {
      SameBacklog(q.jobs, jobs', owner);
    }
  }

  lemma IntakeBacklog(s: Sys, step: Step, owner: Owner)
    requires Inv(s) && step.Intake? && Enabled(s, step) && step.owner != owner
    ensures Backlog(Do(s, step).q.jobs, owner) == Backlog(s.q.jobs, owner)
  {
    var q', i := IntakePreserves(s.q, step.owner, step.episode, step.added, step.outcomes, step.ref, step.now);
    OtherOwnerBacklog(s.q.jobs, q'.jobs, i, step.owner, owner);
  }

  lemma OtherOwnerBacklog(jobs: seq<Job>, jobs': seq<Job>, i: nat, changed: Owner, owner: Owner)
    requires Ordered(jobs) && Ordered(jobs') && Grows(jobs, jobs') && i < |jobs'| && jobs'[i].owner == changed != owner
    requires |jobs'| <= |jobs| + 1 && (|jobs'| > |jobs| ==> i == |jobs|)
    requires forall k :: 0 <= k < |jobs| && k != i ==> jobs'[k] == jobs[k]
    ensures Backlog(jobs', owner) == Backlog(jobs, owner)
  {
    assert i < |jobs| ==> Continues(jobs[i], jobs'[i]);
    SameBacklog(jobs, jobs', owner);
  }

  lemma SettleBacklog(s: Sys, step: Step, owner: Owner)
    requires Inv(s) && (step.Complete? || step.Retry?) && Enabled(s, step)
    ensures Backlog(Do(s, step).q.jobs, owner) == Backlog(s.q.jobs, owner)
  {
    var p := s.processors[step.pid];
    assert ProgressOk(s.q.jobs, s.receipts, s.tokens, p);
    LeasedAreFrozen(s.q);
    SettleRows(s, step);
    SettledBacklog(s.q.jobs, Do(s, step).q.jobs, p.job, p.token, owner);
  }

  predicate RowsSettle(jobs: seq<Job>, jobs': seq<Job>, job: Ref, token: Ref) {
    && |jobs'| == |jobs|
    && forall i :: 0 <= i < |jobs| ==>
         if Matches(jobs[i], job, token) then
           jobs'[i].owner == jobs[i].owner && jobs'[i].frozen == jobs[i].frozen && jobs'[i].ref == jobs[i].ref
         else jobs'[i] == jobs[i]
  }

  lemma SettleRows(s: Sys, step: Step)
    requires (step.Complete? || step.Retry?) && Enabled(s, step)
    ensures RowsSettle(s.q.jobs, Do(s, step).q.jobs, s.processors[step.pid].job, s.processors[step.pid].token)
  {
  }

  predicate LeasesFrozen(jobs: seq<Job>) {
    forall i :: 0 <= i < |jobs| && jobs[i].token != "" ==> jobs[i].frozen
  }

  lemma LeasedAreFrozen(q: Queue)
    requires JobsOk(q.episodes, q.outcomes, q.jobs)
    ensures LeasesFrozen(q.jobs)
  {
    forall i | 0 <= i < |q.jobs| && q.jobs[i].token != "" ensures q.jobs[i].frozen {
      assert JobOk(q.episodes, q.outcomes, q.jobs[i]);
    }
  }

  lemma OtherBacklog(s: Sys, step: Step, owner: Owner, d: int)
    requires Inv(s) && !step.Lease? && Enabled(s, step) && Draining(step, owner, d)
    ensures Backlog(Do(s, step).q.jobs, owner) == Backlog(s.q.jobs, owner)
  {
    if step.Intake? {
      IntakeBacklog(s, step, owner);
    } else if step.Complete? || step.Retry? {
      SettleBacklog(s, step, owner);
    } else if step.Snapshot? || step.Commit? {
      ConsolidateKeepsQueue(s, step.pid, step.Commit?);
    }
  }

  lemma SettledBacklog(jobs: seq<Job>, jobs': seq<Job>, job: Ref, token: Ref, owner: Owner)
    requires Ordered(jobs) && Distinct(jobs) && LeasesFrozen(jobs) && token != ""
    requires RowsSettle(jobs, jobs', job, token)
    ensures Backlog(jobs', owner) == Backlog(jobs, owner)
  {
    SettledOrdered(jobs, jobs');
    SameBacklog(jobs, jobs', owner);
  }

  ghost function FreezesOne(s: Sys, step: Step, owner: Owner): nat
    requires Enabled(s, step)
  {
    if Freezes(s, step, owner) then 1 else 0
  }

  /** One step: a window is used only for what it takes off the backlog. */
  lemma DrainStep(s: Sys, step: Step, owner: Owner, d: int) returns (m: Sys)
    requires Inv(s) && Enabled(s, step) && Draining(step, owner, d) && d >= 1
    ensures m == Do(s, step) && Inv(m)
    ensures FreezesOne(s, step, owner) + Windows(Backlog(m.q.jobs, owner), d) <= Windows(Backlog(s.q.jobs, owner), d)
  {
    m := Do(s, step);
    StepPreserves(s, step);
    if step.Lease? {
      LeaseBacklog(s, step, owner, d);
      if Freezes(s, step, owner) {
        WindowsStep(Backlog(s.q.jobs, owner), Backlog(Do(s, step).q.jobs, owner), d);
      }
    } else {
      OtherBacklog(s, step, owner, d);
    }
  }

  lemma FreezeCountStep(s: Sys, steps: seq<Step>, owner: Owner)
    requires steps != [] && Enabled(s, steps[0])
    ensures FreezeCount(s, steps, owner) == FreezesOne(s, steps[0], owner) + FreezeCount(Do(s, steps[0]), steps[1..], owner)
  {
  }

  lemma {:induction false} DrainRun(s: Sys, steps: seq<Step>, s': Sys, owner: Owner, d: int)
    requires Inv(s) && Runs(s, steps, s') && d >= 1
    requires forall k :: 0 <= k < |steps| ==> Draining(steps[k], owner, d)
    ensures FreezeCount(s, steps, owner) + Windows(Backlog(s'.q.jobs, owner), d) <= Windows(Backlog(s.q.jobs, owner), d)
    decreases |steps|
  {
    if steps != [] {
      var m := DrainStep(s, steps[0], owner, d);
      DrainRun(m, steps[1..], s', owner, d);
      FreezeCountStep(s, steps, owner);
    }
  }

  /** With no new evidence an owner's backlog of n Episodes drains in at most n / d
      windows, rounded up, where d is the window size less the overlap: `windows` is
      that quotient, and whatever a run has frozen and whatever is still to be
      frozen never exceed it. */
  lemma DrainBound(s: Sys, steps: seq<Step>, s': Sys, owner: Owner, d: int) returns (windows: nat, left: nat)
    requires Reachable(s) && Runs(s, steps, s') && d >= 1
    requires forall k :: 0 <= k < |steps| ==> Draining(steps[k], owner, d)
    ensures FreezeCount(s, steps, owner) + left <= windows
    ensures RoundedUp(windows, Backlog(s.q.jobs, owner), d) && RoundedUp(left, Backlog(s'.q.jobs, owner), d)
  {
    ReachableInv(s);
    windows := CeilingOf(Backlog(s.q.jobs, owner), d);
    left := CeilingOf(Backlog(s'.q.jobs, owner), d);
    DrainRun(s, steps, s', owner, d);
  }

  lemma CeilingOf(n: nat, d: int) returns (w: nat)
    requires d >= 1
    ensures w == Windows(n, d) && RoundedUp(w, n, d)
  {
    WindowsIsCeiling(n, d);
    w := Windows(n, d);
  }
}
