/** The durable Job queue and the scheduler's processor as they run, each method
    tied to the steps of the Job model. */
module Scheduler {
  import opened Refs
  import opened JobWindows
  import opened JobModel
  import opened JobSafety

  /** Some run of the model leads from one state to the other. */
  ghost predicate Reaches(a: Sys, b: Sys) {
    exists steps :: Runs(a, steps, b)
  }

  lemma ReachesSelf(a: Sys)
    ensures Reaches(a, a)
  {
    assert Runs(a, [], a);
  }

  lemma ReachesBefore(a: Sys, step: Step, c: Sys)
    requires Enabled(a, step) && Reaches(Do(a, step), c)
    ensures Reaches(a, c)
  {
    var more :| Runs(Do(a, step), more, c);
    assert ([step] + more)[1..] == more;
    assert Runs(a, [step] + more, c);
  }

  lemma {:induction false} RunThenReach(a: Sys, first: seq<Step>, b: Sys, c: Sys)
    requires Runs(a, first, b) && Reaches(b, c)
    ensures Reaches(a, c)
    decreases |first|
  {
    if first != [] {
      RunThenReach(Do(a, first[0]), first[1..], b, c);
      ReachesBefore(a, first[0], c);
    }
  }

  lemma ReachesAll(a: Sys, b: Sys, c: Sys)
    requires Reaches(a, b) && Reaches(b, c)
    ensures Reaches(a, c)
  {
    var first :| Runs(a, first, b);
    RunThenReach(a, first, b, c);
  }

  lemma ReachesNext(a: Sys, b: Sys, step: Step)
    requires Reaches(a, b) && Enabled(b, step)
    ensures Reaches(a, Do(b, step))
  {
    assert Runs(Do(b, step), [step][1..], Do(b, step));
    assert Runs(b, [step], Do(b, step)) == (Enabled(b, step) && Runs(Do(b, step), [step][1..], Do(b, step)));
    ReachesAll(a, b, Do(b, step));
  }

  lemma ReachesInv(a: Sys, b: Sys)
    requires Inv(a) && Reaches(a, b)
    ensures Inv(b)
  {
    var steps :| Runs(a, steps, b);
    RunPreserves(a, steps, b);
  }

  /* ---- the loops of a lease ---- */

  /** prependPreviousOverlap */
  method PrependPreviousOverlap(table: Outcomes, owner: Owner, previous: Option<Evidence>, current: seq<Ref>, limit: int)
    returns (r: Option<Evidence>)
    ensures r == Prepend(table, owner, previous, current, limit)
  {
    if limit <= 0 || previous.None? {
      return Some(Evidence(current, []));
    }
    var tail := LastN(previous.value.episodes, limit);
    var ok, parts := PartitionOutcomes(table, owner, previous.value.episodes, previous.value.outcomes, tail);
    if !ok {
      return None;
    }
    var combined := DedupRefs([], tail);
    combined := DedupRefs(combined, current);
    r := Some(Evidence(combined, parts.selected));
  }

  method DedupRefs(seen: seq<Ref>, more: seq<Ref>) returns (all: seq<Ref>)
    ensures all == Dedup(seen, more)
  {
    all := seen;
    var known := set r | r in seen;
    for i := 0 to |more|
      invariant all == Dedup(seen, more[..i])
      invariant known == set r | r in all
    {
      DedupSnoc(seen, more[..i], more[i]);
      assert more[..i + 1] == more[..i] + [more[i]];
      if more[i] !in known {
        known := known + {more[i]};
        all := all + [more[i]];
      }
    }
    assert more[..|more|] == more;
  }

  method Remainder(refs: seq<Ref>, taken: seq<Ref>) returns (rest: seq<Ref>)
    ensures rest == Without(refs, taken)
  {
    rest := [];
    var selected := set r | r in taken;
    for i := 0 to |refs|
      invariant rest == Without(refs[..i], taken)
    {
      assert refs[..i + 1][..i] == refs[..i];
      if refs[i] !in selected {
        rest := rest + [refs[i]];
      }
    }
    assert refs[..|refs|] == refs;
  }

  /** The freezing branch of a lease. */
  method FreezeWindow(table: Outcomes, owner: Owner, collected: Evidence, previous: Option<Evidence>, max: nat, overlap: int)
    returns (r: Option<Split>)
    ensures r == Freeze(table, owner, collected, previous, max, overlap)
  {
    var limit := overlap;
    if limit >= max {
      limit := max - 1;
    }
    var combined := PrependPreviousOverlap(table, owner, previous, collected.episodes, limit);
    if combined.None? {
      return None;
    }
    var all := combined.value.episodes;
    var window := if |all| > max then all[..max] else all;
    var rest := Remainder(collected.episodes, window);
    var outcomes, _ := AppendUniqueRefs(combined.value.outcomes, collected.outcomes);
    var ok, parts := PartitionOutcomes(table, owner, all, outcomes, window);
    r := if ok then Some(Split(Evidence(window, parts.selected), Evidence(rest, parts.remainder))) else None;
  }

  /** ORDER BY completed_at DESC, created_at DESC LIMIT 1 */
  method PreviousCompleted(jobs: seq<Job>, owner: Owner) returns (previous: Option<nat>)
    ensures IsPrevious(jobs, owner, previous)
  {
    previous := None;
    for i := 0 to |jobs|
      invariant previous.None? ==> forall k :: 0 <= k < i && jobs[k].owner == owner ==> Open(jobs[k])
      invariant previous.Some? ==> previous.value < i && jobs[previous.value].owner == owner && !Open(jobs[previous.value])
      invariant previous.Some? ==> forall k :: 0 <= k < i && jobs[k].owner == owner && !Open(jobs[k]) ==> !Newer(jobs[k], jobs[previous.value])
    {
      if jobs[i].owner == owner && !Open(jobs[i]) && (previous.None? || Newer(jobs[i], jobs[previous.value])) {
        previous := Some(i);
      }
    }
  }

  predicate Newer(a: Job, b: Job)
    requires !Open(a) && !Open(b)
  {
    || b.completedAt.value < a.completedAt.value
    || (a.completedAt == b.completedAt && b.createdAt < a.createdAt)
  }

  datatype LeaseResult = Nothing | Error | Ready(job: nat)

  class JobStore {
    var queue: Queue
    var receipts: map<ReceiptKey, Window>
    var effects: seq<Ref>
    var processors: map<nat, Progress>
    var tokens: set<Ref>

    function View(): Sys
      reads this
    {
      Sys(queue, receipts, effects, processors, tokens)
    }

    /** enqueueConsolidationEvidence */
    method EnqueueEvidence(owner: Owner, episodes: seq<Ref>, outcomes: seq<Ref>, ref: Ref, now: int) returns (ok: bool)
      modifies this`queue
      ensures ok <==> Enqueue(old(queue.jobs), owner, episodes, outcomes, ref, now).Some?
      ensures queue.episodes == old(queue.episodes) && queue.outcomes == old(queue.outcomes)
      ensures Some(queue.jobs) == (if ok then Enqueue(old(queue.jobs), owner, episodes, outcomes, ref, now) else Some(old(queue.jobs)))
    {
      if episodes == [] {
        return true;
      }
      var i := FindCollecting(queue.jobs, owner);
      var stored := Evidence([], []);
      if i >= 0 {
        stored := queue.jobs[i].evidence;
      }
      var mergedEpisodes, episodesChanged := AppendUniqueRefs(stored.episodes, episodes);
      var mergedOutcomes, outcomesChanged := AppendUniqueRefs(stored.outcomes, outcomes);
      if !episodesChanged && !outcomesChanged {
        return true;
      }
      var merged := Evidence(mergedEpisodes, mergedOutcomes);
      if i < 0 {
        if merged.episodes == [] {
          return false;
        }
        queue := queue.(jobs := queue.jobs + [NewJob(ref, owner, merged, now)]);
      } else {
        queue := queue.(jobs := queue.jobs[i := queue.jobs[i].(evidence := merged, notBefore := now, updatedAt := now)]);
      }
      ok := true;
    }

    /** LeaseConsolidationJob: the first ready Job in job_order, frozen if it was
        still collecting; an error changes nothing. */
    method LeaseConsolidationJob(r: Request, now: int, token: Ref, remainder: Ref) returns (result: LeaseResult)
      modifies this`queue
      ensures queue.episodes == old(queue.episodes) && queue.outcomes == old(queue.outcomes)
      ensures !ValidRequest(r) ==> result == Error
      ensures !result.Ready? ==> queue == old(queue)
      ensures result == Nothing ==> forall i: nat :: !Leasable(old(queue.jobs), i, r, now)
      ensures result.Ready? ==>
                && ValidRequest(r) && Leasable(old(queue.jobs), result.job, r, now)
                && (forall i: nat :: i < result.job ==> !Leasable(old(queue.jobs), i, r, now))
                && exists previous ::
                     && IsPrevious(old(queue.jobs), old(queue.jobs)[result.job].owner, previous)
                     && LeaseJobs(old(queue), result.job, previous, r, now, token, remainder) == Some(queue.jobs)
      ensures result == Error && ValidRequest(r) ==>
                exists i: nat, previous ::
                  && Leasable(old(queue.jobs), i, r, now) && IsPrevious(old(queue.jobs), old(queue.jobs)[i].owner, previous)
                  && LeaseJobs(old(queue), i, previous, r, now, token, remainder).None?
    {
      if r.max < 2 || r.overlap < 0 {
        return Error;
      }
      var i := 0;
      while i < |queue.jobs| && !Leasable(queue.jobs, i, r, now)
        invariant 0 <= i <= |queue.jobs|
        invariant forall k: nat :: k < i ==> !Leasable(queue.jobs, k, r, now)
      {
        i := i + 1;
      }
      if i == |queue.jobs| {
        return Nothing;
      }
      var job := queue.jobs[i];
      var previous := PreviousCompleted(queue.jobs, job.owner);
      var rest := Evidence([], []);
      if !job.frozen {
        var split := FreezeWindow(queue.outcomes, job.owner, job.evidence, PreviousEvidence(queue.jobs, previous), r.max, r.overlap);
        if split.None? {
          return Error;
        }
        job := job.(evidence := split.value.window, frozen := true);
        rest := split.value.rest;
      }
      job := job.(token := token, leaseUntil := r.leaseUntil, attempts := job.attempts + 1, updatedAt := now);
      ghost var before := queue;
      queue := queue.(jobs := queue.jobs[i := job]);
      if rest.episodes != [] {
        queue := queue.(jobs := queue.jobs + [NewJob(remainder, job.owner, rest, now)]);
      }
      assert LeaseJobs(before, i, previous, r, now, token, remainder) == Some(queue.jobs);
      result := Ready(i);
    }

    /** CompleteConsolidationJob: acknowledges only the caller's live lease. */
    method CompleteConsolidationJob(ref: Ref, token: Ref, now: int) returns (lost: bool)
      modifies this`queue
      ensures queue == old(queue).(jobs := CompleteJobs(old(queue.jobs), ref, token, now))
      ensures lost <==> forall i :: 0 <= i < |old(queue.jobs)| ==> !Matches(old(queue.jobs)[i], ref, token)
    {
      lost := true;
      var jobs := queue.jobs;
      for i := 0 to |jobs|
        invariant |jobs| == |queue.jobs|
        invariant forall k :: 0 <= k < i ==> jobs[k] == CompleteJobs(queue.jobs, ref, token, now)[k]
        invariant forall k :: i <= k < |jobs| ==> jobs[k] == queue.jobs[k]
        invariant lost <==> forall k :: 0 <= k < i ==> !Matches(queue.jobs[k], ref, token)
      {
        var job := jobs[i];
        if job.ref == ref && job.token == token && job.completedAt.None? {
          jobs := jobs[i := job.(completedAt := Some(now), token := "", updatedAt := now)];
          lost := false;
        }
      }
      queue := queue.(jobs := jobs);
    }

    /** RetryConsolidationJob */
    method RetryConsolidationJob(ref: Ref, token: Ref, notBefore: int, now: int) returns (lost: bool)
      modifies this`queue
      ensures queue == old(queue).(jobs := RetryJobs(old(queue.jobs), ref, token, notBefore, now))
      ensures lost <==> forall i :: 0 <= i < |old(queue.jobs)| ==> !Matches(old(queue.jobs)[i], ref, token)
    {
      lost := true;
      var jobs := queue.jobs;
      for i := 0 to |jobs|
        invariant |jobs| == |queue.jobs|
        invariant forall k :: 0 <= k < i ==> jobs[k] == RetryJobs(queue.jobs, ref, token, notBefore, now)[k]
        invariant forall k :: i <= k < |jobs| ==> jobs[k] == queue.jobs[k]
        invariant lost <==> forall k :: 0 <= k < i ==> !Matches(queue.jobs[k], ref, token)
      {
        var job := jobs[i];
        if job.ref == ref && job.token == token && job.completedAt.None? {
          jobs := jobs[i := job.(notBefore := notBefore, token := "", updatedAt := now)];
          lost := false;
        }
      }
      queue := queue.(jobs := jobs);
    }

    /** What other processes do between two transactions of processor `pid`. */
    method Others(pid: nat, acts: seq<Step>)
      modifies this
      ensures Reaches(old(View()), View())
      ensures (pid in processors) == old(pid in processors)
      ensures pid in processors ==> processors[pid] == old(processors)[pid]
    {
      ghost var start := View();
      ReachesSelf(start);
      for n := 0 to |acts|
        invariant Reaches(start, View())
        invariant (pid in processors) == old(pid in processors)
        invariant pid in processors ==> processors[pid] == old(processors)[pid]
      {
        var step := acts[n];
        if (step.Intake? || step.pid != pid) && Enabled(View(), step) {
          ReachesNext(start, View(), step);
          OthersKeep(View(), step, pid);
          Become(Do(View(), step));
        }
      }
    }

    method Become(s: Sys)
      modifies this
      ensures View() == s
    {
      queue, receipts, effects, processors, tokens := s.q, s.receipts, s.effects, s.processors, s.tokens;
    }

    /** The snapshot or the commit of ConsolidateWindow: whether a receipt was
        found, frozen now, or conflicted. */
    method Engine(pid: nat, committing: bool)
      requires pid in processors
      modifies this
      ensures View() == Consolidate(old(View()), pid, committing)
    {
      var p := processors[pid];
      var owner := WindowOwner(queue, p.evidence);
      if owner.None? {
        processors := processors[pid := Failed(p.job, p.evidence, p.token)];
        return;
      }
      var key := ReceiptKey(owner.value.tenant, p.job);
      var w := Window(owner.value, p.evidence);
      if key in receipts {
        processors := processors[pid := if receipts[key] == w then Succeeded(p.job, p.evidence, p.token)
                                        else Conflicted(p.job, p.evidence, p.token)];
      } else if committing {
        receipts := receipts[key := w];
        effects := effects + [p.job];
        processors := processors[pid := Succeeded(p.job, p.evidence, p.token)];
      } else {
        processors := processors[pid := Prepared(p.job, p.evidence, p.token)];
      }
    }
  }

  lemma OthersKeep(s: Sys, step: Step, pid: nat)
    requires Enabled(s, step) && (step.Intake? || step.pid != pid)
    ensures (pid in Do(s, step).processors) == (pid in s.processors)
    ensures pid in s.processors ==> Do(s, step).processors[pid] == s.processors[pid]
  {
  }

  /* ---- scheduler.Processor ---- */

  datatype Config = Config(quietPeriod: int, leaseDuration: int, workerTimeout: int, retryDelay: int, pollInterval: int,
                           maxEpisodes: int, overlap: int)

  const Defaults := Config(120_000, 300_000, 120_000, 15_000, 1_000, 32, 4)

  /** What happens around one ProcessOne: the acts of others before each of its
      transactions, the Worker's failure, cancellation, and a lost call. */
  datatype Weather = Weather(before: seq<Step>, during: seq<Step>, after: seq<Step>,
                             workerFails: bool, cancelled: bool, callLost: bool)

  datatype Outcome = NoWork | Completed | Retried | LeaseLost | Interrupted

  class Processor {
    const store: JobStore
    const config: Config

    /** New: whatever the environment says, leases are valid, windows make
        progress and the timers are positive. */
    constructor (store: JobStore, config: Config)
      ensures this.store == store
      ensures this.config.quietPeriod > 0 && this.config.leaseDuration > 0 && this.config.workerTimeout > 0
      ensures this.config.retryDelay > 0 && this.config.pollInterval > 0
      ensures forall quiet, until :: ValidRequest(Request(quiet, until, this.config.maxEpisodes, this.config.overlap))
      ensures this.config.maxEpisodes - Clamp(this.config.maxEpisodes, this.config.overlap) >= 1
      ensures config.maxEpisodes >= 2 && 0 <= config.overlap < config.maxEpisodes ==>
                this.config.maxEpisodes == config.maxEpisodes && this.config.overlap == config.overlap
    {
      var quiet := if config.quietPeriod <= 0 then Defaults.quietPeriod else config.quietPeriod;
      var lease := if config.leaseDuration <= 0 then Defaults.leaseDuration else config.leaseDuration;
      var timeout := if config.workerTimeout <= 0 then Defaults.workerTimeout else config.workerTimeout;
      var retry := if config.retryDelay <= 0 then Defaults.retryDelay else config.retryDelay;
      var poll := if config.pollInterval <= 0 then Defaults.pollInterval else config.pollInterval;
      var max := if config.maxEpisodes < 2 then Defaults.maxEpisodes else config.maxEpisodes;
      var overlap := if config.overlap < 0 then 0 else config.overlap;
      if overlap >= max {
        overlap := max - 1;
      }
      this.store := store;
      this.config := Config(quiet, lease, timeout, retry, poll, max, overlap);
    }

    function LeaseRequest(now: int): Request {
      Request(now - config.quietPeriod, now + config.leaseDuration, config.maxEpisodes, config.overlap)
    }

    /** The lease of ProcessOne, as one step. */
    method Lease(pid: nat, now: int, token: Ref, remainder: Ref) returns (result: LeaseResult)
      requires pid !in store.processors && token !in store.tokens && FreshJob(store.queue.jobs, remainder)
      requires JobsOk(store.queue.episodes, store.queue.outcomes, store.queue.jobs) && "" in store.tokens
      requires ValidRequest(LeaseRequest(now))
      modifies store
      ensures Reaches(old(store.View()), store.View()) && (!result.Ready? ==> store.View() == old(store.View()))
      ensures result != Error && (result.Ready? <==> pid in store.processors)
      ensures result.Ready? ==> store.processors[pid].Leased? && store.processors[pid].token == token
      ensures result.Ready? ==>
                && Leasable(old(store.queue.jobs), result.job, LeaseRequest(now), now)
                && result.job < |store.queue.jobs| && store.processors[pid].job == store.queue.jobs[result.job].ref
                && store.queue.jobs[result.job].ref == old(store.queue.jobs)[result.job].ref
    {
      ghost var s := store.View();
      ReachesSelf(s);
      var r := LeaseRequest(now);
      result := store.LeaseConsolidationJob(r, now, token, remainder);
      if result == Error {
        ghost var i: nat, previous :|
          && Leasable(s.q.jobs, i, r, now) && IsPrevious(s.q.jobs, s.q.jobs[i].owner, previous)
          && LeaseJobs(s.q, i, previous, r, now, token, remainder).None?;
        ghost var _ := LeaseSplits(s.q, i, previous, r, now, token, remainder);
        assert false;
      }
      if result.Ready? {
        var job := store.queue.jobs[result.job];
        store.processors := store.processors[pid := Leased(job.ref, job.evidence, token)];
        store.tokens := store.tokens + {token};
        ghost var previous :| IsPrevious(s.q.jobs, s.q.jobs[result.job].owner, previous)
          && LeaseJobs(s.q, result.job, previous, r, now, token, remainder) == Some(store.queue.jobs);
        LeaseReaches(s, pid, result.job, previous, r, now, token, remainder, store.queue.jobs);
      }
    }

    /** The Worker failed: nothing was committed. */
    method GiveUp(pid: nat)
      requires pid in store.processors && store.processors[pid].Prepared?
      modifies store
      ensures Reaches(old(store.View()), store.View())
      ensures pid in store.processors && store.processors[pid].Failed?
      ensures store.processors[pid].job == old(store.processors)[pid].job
      ensures store.processors[pid].token == old(store.processors)[pid].token
    {
      ghost var s := store.View();
      ReachesSelf(s);
      ReachesNext(s, s, Fail(pid));
      var p := store.processors[pid];
      store.processors := store.processors[pid := Failed(p.job, p.evidence, p.token)];
    }

    /** One transaction of ConsolidateWindow. */
    method Transact(pid: nat, committing: bool)
      requires pid in store.processors
      requires if committing then store.processors[pid].Prepared? else store.processors[pid].Leased?
      modifies store
      ensures Reaches(old(store.View()), store.View())
      ensures pid in store.processors && store.processors[pid].token == old(store.processors)[pid].token
      ensures store.processors[pid].job == old(store.processors)[pid].job
      ensures !store.processors[pid].Leased? && (store.processors[pid].Prepared? ==> !committing)
    {
      ghost var s := store.View();
      ReachesSelf(s);
      ReachesNext(s, s, if committing then Commit(pid) else Snapshot(pid));
      store.Engine(pid, committing);
    }

    /** ConsolidateWindow in its two transactions, others acting in between. */
    method Consolidate(pid: nat, w: Weather)
      requires pid in store.processors && store.processors[pid].Leased?
      modifies store
      ensures Reaches(old(store.View()), store.View())
      ensures pid in store.processors && store.processors[pid].token == old(store.processors)[pid].token
      ensures store.processors[pid].job == old(store.processors)[pid].job
      ensures !store.processors[pid].Leased? && !store.processors[pid].Prepared?
    {
      ghost var start := store.View();
      store.Others(pid, w.before);
      ghost var mid := store.View();
      Transact(pid, false);
      ReachesAll(start, mid, store.View());
      if store.processors[pid].Prepared? {
        mid := store.View();
        store.Others(pid, w.during);
        ReachesAll(start, mid, store.View());
        mid := store.View();
        if w.workerFails {
          GiveUp(pid);
        } else {
          Transact(pid, true);
        }
        ReachesAll(start, mid, store.View());
      }
    }

    /** Acknowledge, or release after a failure (retryJob); a cancelled or lost
        call leaves the lease to expire. */
    method Settle(pid: nat, now: int, w: Weather) returns (outcome: Outcome)
      requires pid in store.processors && (store.processors[pid].Succeeded? || store.processors[pid].Failed?)
      modifies store
      ensures Reaches(old(store.View()), store.View())
      ensures pid !in store.processors && outcome != NoWork
      ensures outcome == Completed ==> SettledAs(store.View(), old(store.processors)[pid].job, Some(now), None)
      ensures outcome == Retried ==> SettledAs(store.View(), old(store.processors)[pid].job, None, Some(now + config.retryDelay))
    {
      if w.callLost || (store.processors[pid].Failed? && w.cancelled) {
        StopReaches(store.View(), pid);
        store.processors := store.processors - {pid};
        outcome := Interrupted;
      } else if store.processors[pid].Failed? {
        outcome := Release(pid, now);
      } else {
        outcome := Acknowledge(pid, now);
      }
    }

    method Acknowledge(pid: nat, now: int) returns (outcome: Outcome)
      requires pid in store.processors && store.processors[pid].Succeeded?
      modifies store
      ensures Reaches(old(store.View()), store.View())
      ensures pid !in store.processors && (outcome == Completed || outcome == LeaseLost)
      ensures outcome == Completed ==> SettledAs(store.View(), old(store.processors)[pid].job, Some(now), None)
    {
      var p := store.processors[pid];
      CompleteReaches(store.View(), pid, now);
      var lost := store.CompleteConsolidationJob(p.job, p.token, now);
      store.processors := store.processors - {pid};
      outcome := if lost then LeaseLost else Completed;
    }

    method Release(pid: nat, now: int) returns (outcome: Outcome)
      requires pid in store.processors && store.processors[pid].Failed?
      modifies store
      ensures Reaches(old(store.View()), store.View())
      ensures pid !in store.processors && (outcome == Retried || outcome == LeaseLost)
      ensures outcome == Retried ==> SettledAs(store.View(), old(store.processors)[pid].job, None, Some(now + config.retryDelay))
    {
      var p := store.processors[pid];
      RetryReaches(store.View(), pid, now + config.retryDelay, now);
      var lost := store.RetryConsolidationJob(p.job, p.token, now + config.retryDelay, now);
      store.processors := store.processors - {pid};
      outcome := if lost then LeaseLost else Retried;
    }

    /** ProcessOne: one frozen Job is leased, consolidated and acknowledged, or
        released after a failure. Whatever others do meanwhile, the whole call is
        a run of the model; the Job completed or released is the one leased, and a
        completed one has the receipt of its own window. */
    method ProcessOne(pid: nat, now: int, later: int, token: Ref, remainder: Ref, w: Weather) returns (outcome: Outcome, ghost leased: nat)
      requires Inv(store.View())
      requires pid !in store.processors && token !in store.tokens && FreshJob(store.queue.jobs, remainder)
      requires ValidRequest(LeaseRequest(now))
      modifies store
      ensures Reaches(old(store.View()), store.View()) && Inv(store.View())
      ensures pid !in store.processors
      ensures outcome == NoWork ==> store.View() == old(store.View())
      ensures outcome != NoWork ==>
                && Leasable(old(store.queue.jobs), leased, LeaseRequest(now), now)
                && leased < |store.queue.jobs| && store.queue.jobs[leased].ref == old(store.queue.jobs)[leased].ref
      ensures outcome == Completed ==>
                store.queue.jobs[leased].completedAt == Some(later) && Done(store.receipts, store.queue.jobs[leased])
      ensures outcome == Retried ==> Open(store.queue.jobs[leased]) && store.queue.jobs[leased].notBefore == later + config.retryDelay
    {
      ghost var start := store.View();
      leased := 0;
      var result := Lease(pid, now, token, remainder);
      if !result.Ready? {
        return NoWork, leased;
      }
      leased := result.job;
      ghost var took := store.View();
      ReachesInv(start, took);
      outcome := WorkOn(pid, later, w);
      ReachesAll(start, took, store.View());
      ReachesInv(took, store.View());
      SettledLeased(took, store.View(), leased, outcome, later, config.retryDelay);
    }

    /** What follows the lease: the engine call, then the settling. */
    method WorkOn(pid: nat, later: int, w: Weather) returns (outcome: Outcome)
      requires Inv(store.View()) && pid in store.processors && store.processors[pid].Leased?
      modifies store
      ensures Reaches(old(store.View()), store.View())
      ensures pid !in store.processors && outcome != NoWork
      ensures outcome == Completed ==> SettledAs(store.View(), old(store.processors)[pid].job, Some(later), None)
      ensures outcome == Retried ==> SettledAs(store.View(), old(store.processors)[pid].job, None, Some(later + config.retryDelay))
    {
      ghost var start := store.View();
      Consolidate(pid, w);
      ghost var mid := store.View();
      store.Others(pid, w.after);
      ReachesAll(start, mid, store.View());
      mid := store.View();
      ReachesInv(start, mid);
      NeverConflicted(mid, pid);
      outcome := Settle(pid, later, w);
      ReachesAll(start, mid, store.View());
    }
  }

  /** The Job's row was completed at that time, or released until then. */
  ghost predicate SettledAs(s: Sys, job: Ref, completed: Option<int>, notBefore: Option<int>) {
    exists i :: 0 <= i < |s.q.jobs| && s.q.jobs[i].ref == job && s.q.jobs[i].completedAt == completed
                && (notBefore.Some? ==> s.q.jobs[i].notBefore == notBefore.value)
  }

  lemma StopReaches(s: Sys, pid: nat)
    requires pid in s.processors
    ensures Reaches(s, s.(processors := s.processors - {pid}))
  {
    ReachesSelf(s);
    ReachesNext(s, s, Crash(pid));
  }

  lemma CompleteReaches(s: Sys, pid: nat, now: int)
    requires pid in s.processors && s.processors[pid].Succeeded?
    ensures var p := s.processors[pid];
            var s' := s.(q := s.q.(jobs := CompleteJobs(s.q.jobs, p.job, p.token, now)), processors := s.processors - {pid});
            && Reaches(s, s')
            && ((exists i :: 0 <= i < |s.q.jobs| && Matches(s.q.jobs[i], p.job, p.token)) ==> SettledAs(s', p.job, Some(now), None))
  {
    ReachesSelf(s);
    ReachesNext(s, s, Complete(pid, now));
    var p := s.processors[pid];
    if i :| 0 <= i < |s.q.jobs| && Matches(s.q.jobs[i], p.job, p.token) {
      assert CompleteJobs(s.q.jobs, p.job, p.token, now)[i].completedAt == Some(now);
    }
  }

  lemma RetryReaches(s: Sys, pid: nat, notBefore: int, now: int)
    requires pid in s.processors && s.processors[pid].Failed?
    ensures var p := s.processors[pid];
            var s' := s.(q := s.q.(jobs := RetryJobs(s.q.jobs, p.job, p.token, notBefore, now)), processors := s.processors - {pid});
            && Reaches(s, s')
            && ((exists i :: 0 <= i < |s.q.jobs| && Matches(s.q.jobs[i], p.job, p.token)) ==> SettledAs(s', p.job, None, Some(notBefore)))
  {
    ReachesSelf(s);
    ReachesNext(s, s, Retry(pid, notBefore, now));
    var p := s.processors[pid];
    if i :| 0 <= i < |s.q.jobs| && Matches(s.q.jobs[i], p.job, p.token) {
      assert RetryJobs(s.q.jobs, p.job, p.token, notBefore, now)[i].notBefore == notBefore;
    }
  }

  lemma LeaseReaches(s: Sys, pid: nat, i: nat, previous: Option<nat>, r: Request, now: int, token: Ref, remainder: Ref, jobs: seq<Job>)
    requires pid !in s.processors && ValidRequest(r) && Leasable(s.q.jobs, i, r, now) && IsPrevious(s.q.jobs, s.q.jobs[i].owner, previous)
    requires token !in s.tokens && FreshJob(s.q.jobs, remainder) && LeaseJobs(s.q, i, previous, r, now, token, remainder) == Some(jobs)
    ensures i < |jobs| && jobs[i].ref == s.q.jobs[i].ref
    ensures Reaches(s, s.(q := s.q.(jobs := jobs), tokens := s.tokens + {token},
                          processors := s.processors[pid := Leased(jobs[i].ref, jobs[i].evidence, token)]))
  {
    ReachesSelf(s);
    ReachesNext(s, s, Step.Lease(pid, i, previous, r, now, token, remainder));
  }

  /** The row that was settled is the row that was leased. */
  lemma SettledLeased(took: Sys, s: Sys, leased: nat, outcome: Outcome, later: int, delay: int)
    requires Inv(took) && Inv(s) && Reaches(took, s) && leased < |took.q.jobs|
    requires outcome == Completed ==> SettledAs(s, took.q.jobs[leased].ref, Some(later), None)
    requires outcome == Retried ==> SettledAs(s, took.q.jobs[leased].ref, None, Some(later + delay))
    ensures leased < |s.q.jobs| && s.q.jobs[leased].ref == took.q.jobs[leased].ref
    ensures outcome == Completed ==> s.q.jobs[leased].completedAt == Some(later) && Done(s.receipts, s.q.jobs[leased])
    ensures outcome == Retried ==> Open(s.q.jobs[leased]) && s.q.jobs[leased].notBefore == later + delay
  {
    ReachesGrows(took, s);
    SameRow(took.q.jobs, s.q.jobs, leased);
    SettledAt(s, leased, Some(later), None);
    SettledAt(s, leased, None, Some(later + delay));
    if outcome == Completed {
      CompletedIsDone(s, leased);
    }
  }

  lemma SameRow(jobs: seq<Job>, jobs': seq<Job>, i: nat)
    requires Grows(jobs, jobs') && i < |jobs|
    ensures i < |jobs'| && jobs'[i].ref == jobs[i].ref
  {
    assert Continues(jobs[i], jobs'[i]);
  }

  lemma SettledAt(s: Sys, i: nat, completed: Option<int>, notBefore: Option<int>)
    requires Distinct(s.q.jobs) && i < |s.q.jobs|
    ensures SettledAs(s, s.q.jobs[i].ref, completed, notBefore) ==>
              s.q.jobs[i].completedAt == completed && (notBefore.Some? ==> s.q.jobs[i].notBefore == notBefore.value)
  {
  }

  lemma ReachesGrows(a: Sys, b: Sys)
    requires Inv(a) && Reaches(a, b)
    ensures Grows(a.q.jobs, b.q.jobs)
  {
    var steps :| Runs(a, steps, b);
    RunPreserves(a, steps, b);
  }

  lemma CompletedIsDone(s: Sys, i: nat)
    requires Inv(s) && i < |s.q.jobs| && !Open(s.q.jobs[i])
    ensures Done(s.receipts, s.q.jobs[i])
  {
  }

  lemma NeverConflicted(s: Sys, pid: nat)
    requires Inv(s) && pid in s.processors
    ensures !s.processors[pid].Conflicted?
  {
    assert ProgressOk(s.q.jobs, s.receipts, s.tokens, s.processors[pid]);
  }
}
