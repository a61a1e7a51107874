/** Consolidation Jobs, the scheduler's processors and the engine's receipts,
    with one atomic step per transaction. */
module JobModel {
  import opened Refs
  import opened JobWindows

  datatype Job = Job(
    ref: Ref, owner: Owner, evidence: Evidence, frozen: bool,
    token: Ref, leaseUntil: int, notBefore: int, attempts: nat,
    completedAt: Option<int>, createdAt: int, updatedAt: int)

  /** job_order is the position in `jobs`. */
  datatype Queue = Queue(jobs: seq<Job>, episodes: map<Ref, Owner>, outcomes: Outcomes)

  predicate Open(j: Job) {
    j.completedAt.None?
  }

  predicate Collecting(j: Job, owner: Owner) {
    j.owner == owner && !j.frozen && Open(j)
  }

  function FindCollecting(jobs: seq<Job>, owner: Owner): (i: int)
    ensures -1 <= i < |jobs|
    ensures i >= 0 ==> Collecting(jobs[i], owner)
    ensures i < 0 ==> forall k :: 0 <= k < |jobs| ==> !Collecting(jobs[k], owner)
  {
    if jobs == [] then -1
    else if Collecting(jobs[|jobs| - 1], owner) then |jobs| - 1
    else FindCollecting(jobs[..|jobs| - 1], owner)
  }

  function NewJob(ref: Ref, owner: Owner, e: Evidence, now: int): Job {
    Job(ref, owner, e, false, "", 0, now, 0, None, now, now)
  }

  function Merge(stored: Evidence, episodes: seq<Ref>, outcomes: seq<Ref>): Evidence {
    Evidence(AppendUnique(stored.episodes, episodes), AppendUnique(stored.outcomes, outcomes))
  }

  /** enqueueConsolidationEvidence; None is a violated CHECK constraint. */
  function Enqueue(jobs: seq<Job>, owner: Owner, episodes: seq<Ref>, outcomes: seq<Ref>, ref: Ref, now: int): Option<seq<Job>> {
    if episodes == [] then Some(jobs)
    else
      var i := FindCollecting(jobs, owner);
      var stored := if i < 0 then Evidence([], []) else jobs[i].evidence;
      var merged := Merge(stored, episodes, outcomes);
      if merged == stored then Some(jobs)
      else if i < 0 then
        if merged.episodes == [] then None else Some(jobs + [NewJob(ref, owner, merged, now)])
      else Some(jobs[i := jobs[i].(evidence := merged, notBefore := now, updatedAt := now)])
  }

  /** The path taken when a lease froze the row this transaction had been about
      to join: the insert meets the unique index and joins the remainder row. */
  function EnqueueAfterRace(jobs: seq<Job>, owner: Owner, episodes: seq<Ref>, outcomes: seq<Ref>, now: int): Option<seq<Job>>
    requires FindCollecting(jobs, owner) >= 0
  {
    if episodes == [] || Merge(Evidence([], []), episodes, outcomes) == Evidence([], []) then Some(jobs)
    else
      var i := FindCollecting(jobs, owner);
      var merged := Merge(jobs[i].evidence, episodes, outcomes);
      if merged == jobs[i].evidence then Some(jobs)
      else Some(jobs[i := jobs[i].(evidence := merged, notBefore := now, updatedAt := now)])
  }

  datatype Request = Request(quietBefore: int, leaseUntil: int, max: int, overlap: int)

  predicate ValidRequest(r: Request) {
    r.max >= 2 && r.overlap >= 0
  }

  /** The lease query. */
  predicate Leasable(jobs: seq<Job>, i: nat, r: Request, now: int) {
    && i < |jobs| && Open(jobs[i]) && jobs[i].notBefore <= now
    && (jobs[i].token == "" || jobs[i].leaseUntil <= now)
    && !(exists k :: 0 <= k < i && jobs[k].owner == jobs[i].owner && Open(jobs[k]))
    && (jobs[i].frozen ||
        ((jobs[i].updatedAt <= r.quietBefore || |jobs[i].evidence.episodes| >= r.max) && |jobs[i].evidence.episodes| >= 1))
  }

  /** The newest completed Job of the owner, by completion then creation time. */
  predicate IsPrevious(jobs: seq<Job>, owner: Owner, previous: Option<nat>) {
    match previous
    case None => forall k :: 0 <= k < |jobs| && jobs[k].owner == owner ==> Open(jobs[k])
    case Some(p) =>
      && p < |jobs| && jobs[p].owner == owner && !Open(jobs[p])
      && forall k :: 0 <= k < |jobs| && jobs[k].owner == owner && !Open(jobs[k]) ==>
           || jobs[k].completedAt.value < jobs[p].completedAt.value
           || (jobs[k].completedAt == jobs[p].completedAt && jobs[k].createdAt <= jobs[p].createdAt)
  }

  function PreviousEvidence(jobs: seq<Job>, previous: Option<nat>): Option<Evidence>
    requires previous.Some? ==> previous.value < |jobs|
  {
    if previous.None? then None else Some(jobs[previous.value].evidence)
  }

  /** LeaseConsolidationJob on the chosen row; None is a failed partition check. */
  function LeaseJobs(q: Queue, i: nat, previous: Option<nat>, r: Request, now: int, token: Ref, remainder: Ref): Option<seq<Job>>
    requires ValidRequest(r) && i < |q.jobs| && (previous.Some? ==> previous.value < |q.jobs|)
  {
    var job := q.jobs[i].(token := token, leaseUntil := r.leaseUntil, attempts := q.jobs[i].attempts + 1, updatedAt := now);
    if job.frozen then Some(q.jobs[i := job])
    else
      var split := Freeze(q.outcomes, job.owner, job.evidence, PreviousEvidence(q.jobs, previous), r.max, r.overlap);
      if split.None? then None
      else
        var jobs := q.jobs[i := job.(evidence := split.value.window, frozen := true)];
        if split.value.rest.episodes == [] then Some(jobs)
        else Some(jobs + [NewJob(remainder, job.owner, split.value.rest, now)])
  }

  /** Complete and Retry match (job_ref, lease_token) on an open row. */
  predicate Matches(j: Job, ref: Ref, token: Ref) {
    j.ref == ref && j.token == token && Open(j)
  }

  function CompleteJobs(jobs: seq<Job>, ref: Ref, token: Ref, now: int): (r: seq<Job>)
    ensures |r| == |jobs|
    ensures forall i :: 0 <= i < |jobs| ==>
              r[i] == if Matches(jobs[i], ref, token) then jobs[i].(completedAt := Some(now), token := "", updatedAt := now) else jobs[i]
  {
    seq(|jobs|, i requires 0 <= i < |jobs| =>
      if Matches(jobs[i], ref, token) then jobs[i].(completedAt := Some(now), token := "", updatedAt := now) else jobs[i])
  }

  function RetryJobs(jobs: seq<Job>, ref: Ref, token: Ref, notBefore: int, now: int): (r: seq<Job>)
    ensures |r| == |jobs|
    ensures forall i :: 0 <= i < |jobs| ==>
              r[i] == if Matches(jobs[i], ref, token) then jobs[i].(notBefore := notBefore, token := "", updatedAt := now) else jobs[i]
  {
    seq(|jobs|, i requires 0 <= i < |jobs| =>
      if Matches(jobs[i], ref, token) then jobs[i].(notBefore := notBefore, token := "", updatedAt := now) else jobs[i])
  }

  /* ---- processors and the engine ---- */

  datatype Window = Window(owner: Owner, evidence: Evidence)
  /** (tenant_ref, job_ref), the key of consolidation_receipts. */
  datatype ReceiptKey = ReceiptKey(tenant: Ref, job: Ref)

  datatype Progress =
    | Leased(job: Ref, evidence: Evidence, token: Ref)
    /** The snapshot found no receipt; the Worker is running. */
    | Prepared(job: Ref, evidence: Evidence, token: Ref)
    | Succeeded(job: Ref, evidence: Evidence, token: Ref)
    | Failed(job: Ref, evidence: Evidence, token: Ref)
    /** ErrWindowConflict */
    | Conflicted(job: Ref, evidence: Evidence, token: Ref)

  datatype Sys = Sys(
    q: Queue, receipts: map<ReceiptKey, Window>,
    /** The Jobs whose effects were committed, in commit order. */
    effects: seq<Ref>,
    processors: map<nat, Progress>, tokens: set<Ref>)

  function Init(): Sys {
    Sys(Queue([], map[], map[]), map[], [], map[], {""})
  }

  /** loadConsolidationEpisodes: the single owner of a window's Episodes, or
      ErrInvalidWindow. */
  function WindowOwner(q: Queue, e: Evidence): Option<Owner> {
    if e.episodes != [] && e.episodes[0] in q.episodes &&
       forall i :: 0 <= i < |e.episodes| ==> e.episodes[i] in q.episodes && q.episodes[e.episodes[i]] == q.episodes[e.episodes[0]]
    then Some(q.episodes[e.episodes[0]]) else None
  }

  /** One engine look-up of the receipt: found, conflicting, or absent. */
  datatype Lookup = Absent | Found | Conflicting

  function LookUp(s: Sys, job: Ref, w: Window): Lookup {
    var key := ReceiptKey(w.owner.tenant, job);
    if key !in s.receipts then Absent else if s.receipts[key] == w then Found else Conflicting
  }

  datatype Step =
    /** An intake transaction made `episode` complete or changed it, bound the
        Outcomes `added` to it, and enqueued its state. */
    | Intake(owner: Owner, episode: Ref, added: set<Ref>, outcomes: seq<Ref>, ref: Ref, now: int)
    | Lease(pid: nat, job: nat, previous: Option<nat>, request: Request, now: int, token: Ref, remainder: Ref)
    | Snapshot(pid: nat)
    /** Worker error, storage error or a stale snapshot. */
    | Fail(pid: nat)
    | Commit(pid: nat)
    | Complete(pid: nat, now: int)
    | Retry(pid: nat, notBefore: int, now: int)
    /** The processor stopped, or its acknowledgement was lost. */
    | Crash(pid: nat)

  function Bind(outcomes: Outcomes, owner: Owner, episode: Ref, added: set<Ref>): Outcomes {
    map o | o in outcomes.Keys + added :: if o in outcomes then outcomes[o] else OutcomeRow(owner, episode)
  }

  predicate FreshJob(jobs: seq<Job>, ref: Ref) {
    ref != "" && forall i :: 0 <= i < |jobs| ==> jobs[i].ref != ref
  }

  /** enqueueEpisodeState reads exactly the Outcomes bound to the Episode. */
  predicate OutcomesOf(table: Outcomes, owner: Owner, episode: Ref, added: set<Ref>, outcomes: seq<Ref>) {
    && (forall o | o in outcomes :: o in added || (o in table && table[o] == OutcomeRow(owner, episode)))
    && (forall o | o in added :: o in outcomes)
    && (forall o | o in table && table[o] == OutcomeRow(owner, episode) :: o in outcomes)
  }

  predicate Enabled(s: Sys, step: Step) {
    match step
    case Intake(owner, episode, added, outcomes, ref, now) =>
      && episode != "" && (episode in s.q.episodes ==> s.q.episodes[episode] == owner)
      && "" !in added && added !! s.q.outcomes.Keys && FreshJob(s.q.jobs, ref)
      && Unique(outcomes)
      && OutcomesOf(s.q.outcomes, owner, episode, added, outcomes)
      && Enqueue(s.q.jobs, owner, [episode], outcomes, ref, now).Some?
    case Lease(pid, i, previous, r, now, token, remainder) =>
      && pid !in s.processors && ValidRequest(r) && Leasable(s.q.jobs, i, r, now)
      && IsPrevious(s.q.jobs, s.q.jobs[i].owner, previous)
      && token !in s.tokens && FreshJob(s.q.jobs, remainder)
      && LeaseJobs(s.q, i, previous, r, now, token, remainder).Some?
    case Snapshot(pid) => pid in s.processors && s.processors[pid].Leased?
    case Fail(pid) => pid in s.processors && (s.processors[pid].Leased? || s.processors[pid].Prepared?)
    case Commit(pid) => pid in s.processors && s.processors[pid].Prepared?
    case Complete(pid, _) => pid in s.processors && s.processors[pid].Succeeded?
    case Retry(pid, _, _) => pid in s.processors && s.processors[pid].Failed?
    case Crash(pid) => pid in s.processors
  }

  function Consolidate(s: Sys, pid: nat, committing: bool): Sys
    requires pid in s.processors
  {
    var p := s.processors[pid];
    var owner := WindowOwner(s.q, p.evidence);
    if owner.None? then s.(processors := s.processors[pid := Failed(p.job, p.evidence, p.token)])
    else
      var w := Window(owner.value, p.evidence);
      match LookUp(s, p.job, w)
      case Found => s.(processors := s.processors[pid := Succeeded(p.job, p.evidence, p.token)])
      case Conflicting => s.(processors := s.processors[pid := Conflicted(p.job, p.evidence, p.token)])
      case Absent =>
        if committing then
          s.(receipts := s.receipts[ReceiptKey(w.owner.tenant, p.job) := w], effects := s.effects + [p.job],
             processors := s.processors[pid := Succeeded(p.job, p.evidence, p.token)])
        else s.(processors := s.processors[pid := Prepared(p.job, p.evidence, p.token)])
  }

  function Do(s: Sys, step: Step): Sys
    requires Enabled(s, step)
  {
    match step
    case Intake(owner, episode, added, outcomes, ref, now) =>
      s.(q := Queue(Enqueue(s.q.jobs, owner, [episode], outcomes, ref, now).value,
                    s.q.episodes[episode := owner], Bind(s.q.outcomes, owner, episode, added)))
    case Lease(pid, i, previous, r, now, token, remainder) =>
      var jobs := LeaseJobs(s.q, i, previous, r, now, token, remainder).value;
      s.(q := s.q.(jobs := jobs), tokens := s.tokens + {token},
         processors := s.processors[pid := Leased(jobs[i].ref, jobs[i].evidence, token)])
    case Snapshot(pid) => Consolidate(s, pid, false)
    case Fail(pid) =>
      var p := s.processors[pid];
      s.(processors := s.processors[pid := Failed(p.job, p.evidence, p.token)])
    case Commit(pid) => Consolidate(s, pid, true)
    case Complete(pid, now) =>
      var p := s.processors[pid];
      s.(q := s.q.(jobs := CompleteJobs(s.q.jobs, p.job, p.token, now)), processors := s.processors - {pid})
    case Retry(pid, notBefore, now) =>
      var p := s.processors[pid];
      s.(q := s.q.(jobs := RetryJobs(s.q.jobs, p.job, p.token, notBefore, now)), processors := s.processors - {pid})
    case Crash(pid) => s.(processors := s.processors - {pid})
  }

  predicate Runs(s: Sys, steps: seq<Step>, s': Sys)
    decreases |steps|
  {
    if steps == [] then s == s'
    else Enabled(s, steps[0]) && Runs(Do(s, steps[0]), steps[1..], s')
  }

  ghost predicate Reachable(s: Sys) {
    exists steps :: Runs(Init(), steps, s)
  }
}
