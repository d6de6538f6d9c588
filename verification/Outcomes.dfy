/** What single calls record, protect and refuse. */
module Outcomes {
  import opened Common
  import opened RedisLists
  import opened Jobs
  import opened Admission
  import opened Lifecycle
  import opened Ledger
  import opened Invariant
  import opened Steps
  import opened Runs
  import opened Theorems

  /** Only the job itself and its root are rewritten. */
  ghost predicate OthersUntouched(s: State, s': State, id: JobId)
    requires id in s.jobs
  {
    forall x {:trigger s'.jobs[x]} | x in s.jobs && x != id && s.jobs[id].root != Some(x) ::
      x in s'.jobs && s'.jobs[x] == s.jobs[x]
  }

  /** The three endings leave the record they name, whole, and touch no other job but the root. */
  lemma EndingsRecorded(cfg: Config, s: State, id: JobId, text: string, worker: Option<WorkerId>)
    requires Inv(cfg, s) && id in s.jobs
    ensures var s' := MarkCompleted(s, id, text, worker);
            && id in s'.jobs && s'.jobs[id] == s.jobs[id].(status := Completed, result := Some(text))
            && OthersUntouched(s, s', id)
    ensures var s' := MarkFailed(s, id, text, worker);
            && id in s'.jobs && s'.jobs[id] == s.jobs[id].(status := Failed, error := Some(text))
            && OthersUntouched(s, s', id)
    ensures var s' := MarkCancelled(s, id, worker);
            if s.jobs[id].status.Terminal() then s' == s
            else id in s'.jobs && s'.jobs[id] == s.jobs[id].(status := Cancelled) && OthersUntouched(s, s', id)
  {
    hide Balanced, WithinCapacity, Bounded, Release, DropProcessing, NoStrays, Seated, Sized, Tracked;
    assert JobOk(cfg, s, id);
  }

  /** A lease taken at `now` is not yet due at `later`, and the reaper leaves the job as it is. */
  ghost predicate Protected(cfg: Config, s: State, id: JobId, later: int) {
    id in s.active && s.active[id] > later && forall gpuWorkers :: Reap(cfg, s, id, gpuWorkers, later) == s
  }

  /** Admission, claim and renewal each protect the job from the reaper for the lease. */
  lemma LeaseProtects(cfg: Config, s: State, id: JobId, now: int, later: int)
    requires cfg.Valid() && id in s.jobs && later < now + cfg.leaseSeconds
    ensures s.jobs[id].status in {Admitted, Running} ==> Protected(cfg, Renew(cfg, s, id, now), id, later)
    ensures forall queue, t, r, gpu | t in cfg.targets && Admits(cfg, s, id, queue, t, r, gpu) ::
              Protected(cfg, TryAdmit(cfg, s, id, queue, t, r, gpu, now), id, later)
    ensures forall w, pool, t, kind: Option<TargetKind>, gpu
              | Claimable(s, pool, t) == Some(id) && !Expired(s.jobs[id], now)
                && (kind.None? || s.jobs[id].targetKind == kind.value) ::
              Protected(cfg, Claim(cfg, s, w, pool, t, kind, gpu, now), id, later)
  {
    hide Evaluate, Reserve, Release, RPush, RemoveOne, PopToProcessing;
  }

  /** A claim takes the job that was admitted last: dispatch lists are pushed and popped at the same end. */
  lemma NewestClaimedFirst(cfg: Config, s: State, id: JobId, queue: Key, t: TargetId, r: Report, gpuWorkers: bool,
      now: int)
    requires cfg.Valid() && t in cfg.targets && Admits(cfg, s, id, queue, t, r, gpuWorkers)
    ensures Claimable(TryAdmit(cfg, s, id, queue, t, r, gpuWorkers, now), PoolFor(s.jobs[id].cls), t) == Some(id)
  {
    hide Evaluate, Reserve, RemoveOne;
  }

  /** Where a claimed job ends up: started by the worker, failed for its deadline, or queued again for its kind. */
  lemma ClaimOutcome(cfg: Config, s: State, w: WorkerId, pool: Pool, t: TargetId, kind: Option<TargetKind>,
                     gpuWorkers: bool, now: int, id: JobId)
    requires Inv(cfg, s) && id in s.jobs && Claimable(s, pool, t) == Some(id)
    ensures var s' := Claim(cfg, s, w, pool, t, kind, gpuWorkers, now);
            var j := s.jobs[id];
            && id in s'.jobs
            && if kind.Some? && j.targetKind != kind.value then
                 s'.jobs[id].status == Queued && OnlyAt(s', id, Pending(j.cls, j.priority))
               else if Expired(j, now) then
                 s'.jobs[id].status == Failed && s'.jobs[id].error == Some(DEADLINE_EXCEEDED_ERROR) && Nowhere(s', id)
               else
                 s'.jobs[id] == j.(status := Running, worker := Some(w), lease := now + cfg.leaseSeconds)
                 && OnlyAt(s', id, Processing(w))
  {
    hide Inv, Release, RPush, RemoveOne, PopToProcessing, MarkFailed, Occurs, Held, JobOk, PendingTotal, Home;
    Roots(cfg, s, id);
    Popped(cfg, s, w, pool, t);
    var popped := PopToProcessing(s.lists, Dispatch(pool, t), Processing(w));
    RemoveOneOccurs(popped, Processing(w), id);
    RPushOccurs(RemoveOne(popped, Processing(w), id), Pending(s.jobs[id].cls, s.jobs[id].priority), id);
    FailedRecord(s.(lists := popped), id, w);
  }

  lemma FailedRecord(s: State, id: JobId, w: WorkerId)
    requires id in s.jobs && s.jobs[id].root != Some(id)
    ensures var s' := MarkFailed(s, id, DEADLINE_EXCEEDED_ERROR, Some(w));
            && id in s'.jobs && s'.jobs[id].status == Failed && s'.jobs[id].error == Some(DEADLINE_EXCEEDED_ERROR)
            && s'.lists == RemoveOne(s.lists, Processing(w), id)
  {
    hide Release, RemoveOne;
  }

  /** The record asks for what the request asked, under the bounds of the configuration. */
  predicate AsksFor(cfg: Config, j: Job, req: Request, root: Option<JobId>) {
    && j.user == req.user && j.kind == req.kind && j.cls == req.cls && j.model == req.model && j.root == root
    && j.demand.promptTokens == req.promptTokens && j.demand.contextTokens == req.contextTokens
    && j.demand.maxOutputTokens == req.maxOutputTokens && Some(j.demand.sizeBytes) == req.sizeBytes
    && (if req.priority.Some? then j.priority == req.priority.value
        else j.priority == match req.cls { case Siem => P2 case Batch => P3 case _ => P1 })
    && j.deadline == req.now + cfg.deadlineSeconds && j.maxRetries == cfg.maxJobRetries
  }

  /** Nothing is held, promised or reported yet. */
  predicate Untried(j: Job) {
    && j.status == Queued && j.retryCount == 0 && !j.cancelRequested && j.result.None? && j.error.None?
    && j.target.None? && j.worker.None? && j.child.None? && j.tokens == j.vram == j.ram == 0
  }

  /** An accepted request is recorded as asked, untried, last in the queue of its class and priority. */
  lemma EnqueuedRecord(cfg: Config, s: State, id: JobId, req: Request, root: Option<JobId>)
    requires Enqueues(cfg, s, id, req)
    ensures var s' := Enqueue(cfg, s, id, req, root);
            && id in s'.jobs && AsksFor(cfg, s'.jobs[id], req, root) && Untried(s'.jobs[id])
            && s'.jobs[id].targetKind == req.targetKind
            && (var queue := Pending(req.cls, s'.jobs[id].priority);
                ListAt(s'.lists, queue) == ListAt(s.lists, queue) + [id])
  {
  }

  /** Whatever happens later, the record asks for the same. */
  lemma {:induction false} RequestKept(cfg: Config, s: State, es: seq<Event>, id: JobId, req: Request,
                                       root: Option<JobId>)
    requires cfg.Valid() && id in s.jobs && AsksFor(cfg, s.jobs[id], req, root)
    ensures id in After(cfg, s, es).jobs && AsksFor(cfg, After(cfg, s, es).jobs[id], req, root)
    decreases |es|
  {
    hide Next;
    if es != [] {
      StepRetries(cfg, s, es[0], id);
      RequestKept(cfg, Next(cfg, s, es[0]), es[1..], id, req, root);
    }
  }

  /**
    A request for a new id and a known model is turned away exactly when as many jobs are pending as
    the configured minimum and as the tokens and workers of the cluster are good for.
  */
  lemma EnqueuedExactly(cfg: Config, s: State, id: JobId, req: Request, root: Option<JobId>)
    requires id !in s.jobs
    ensures Enqueue(cfg, s, id, req, root) != s
            <==> && req.sizeBytes.Some?
                 && (var pending := PendingTotal(s.lists);
                     || pending < cfg.minQueueDepth
                     || pending < ClusterTokens(cfg) * cfg.queueFactor + cfg.workerCount * cfg.workerWeight)
  {
    hide PendingTotal, ClusterTokens;
    var s' := Enqueue(cfg, s, id, req, root);
    assert Enqueues(cfg, s, id, req) ==> id in s'.jobs;
  }

  /** A root that has a child, has ended or is to be cancelled gets none. */
  predicate TakesNoChild(j: Job) { j.child.Some? || j.status.Terminal() || j.cancelRequested }

  /**
    What a parser root leaves in the store when it asks for its child: nothing where it takes none;
    the link alone where the child is there; the child as asked for, in the root's name, untried and
    last in its queue, with the link; nothing where the child is refused.
  */
  lemma ChildOutcome(cfg: Config, s: State, root: JobId, req: Request)
    requires root in s.jobs
    ensures var s', c := CreateChild(cfg, s, root, req, true), ChildOf(root);
            var asked := req.(user := s.jobs[root].user);
            var linked := s.jobs[root].(child := Some(c));
            if TakesNoChild(s.jobs[root]) then s' == s
            else if c in s.jobs then s' == s.(jobs := s.jobs[root := linked])
            else if req.kind != FileChatJob || !Enqueues(cfg, s, c, asked) then s' == s
            else && c in s'.jobs && AsksFor(cfg, s'.jobs[c], asked, Some(root)) && Untried(s'.jobs[c])
                 && s'.jobs == s.jobs[c := s'.jobs[c]][root := linked]
                 && s'.lists == RPush(s.lists, Pending(req.cls, s'.jobs[c].priority), c)
                 && s'.counters == s.counters && s'.active == s.active
  {
    hide PendingTotal, QueueLimit, RPush;
  }

  /** Reading a root's link repairs it: an orphan child is linked, and nothing else changes. */
  lemma LinkOutcome(s: State, root: JobId)
    ensures if root in s.jobs && s.jobs[root].child.None? && ChildOf(root) in s.jobs
            then LinkChild(s, root) == s.(jobs := s.jobs[root := s.jobs[root].(child := Some(ChildOf(root)))])
            else LinkChild(s, root) == s
  {
  }

  /** Free of target, worker, lease and reservation. */
  predicate Free(j: Job) { j.target.None? && j.worker.None? && j.lease == 0 && j.tokens == j.vram == j.ram == 0 }

  /** A parked root still runs, waits on the child it names, and holds nothing. */
  lemma WaitOutcome(cfg: Config, s: State, id: JobId, child: JobId, worker: Option<WorkerId>)
    requires id in s.jobs
    ensures var s', j := WaitOnChild(s, id, child, worker), s.jobs[id];
            && id in s'.jobs && id !in s'.active && Free(s'.jobs[id]) && SameRequest(j, s'.jobs[id])
            && s'.jobs[id].status == j.status && s'.jobs[id].child == Some(child) && s'.jobs[id].stage == ChildEnqueued
            && s'.jobs[id].retryCount == j.retryCount && s'.jobs[id].cancelRequested == j.cancelRequested
            && s'.jobs == s.jobs[id := s'.jobs[id]]
  {
    hide Release, DropProcessing;
  }

  /**
    What the reaper makes of a live job whose lease has run out: first a child that was to be
    cancelled is, then a job past its deadline fails, then one without retries left fails, and any
    other is queued again with one retry more, for a CPU while no GPU worker lives.
  */
  lemma ReapOutcome(cfg: Config, s: State, id: JobId, gpuWorkers: bool, now: int)
    requires Inv(cfg, s) && id in s.jobs && !s.jobs[id].status.Terminal() && s.jobs[id].lease <= now
    ensures var s', j := Reap(cfg, s, id, gpuWorkers, now), s.jobs[id];
            && id in s'.jobs && id !in s'.active
            && if id.ChildOf? && j.cancelRequested && j.status in {Running, Admitted} then
                 s'.jobs[id] == j.(status := Cancelled)
               else if j.deadline != 0 && j.deadline <= now then
                 s'.jobs[id] == j.(status := Failed, error := Some(DEADLINE_EXCEEDED_ERROR))
               else if j.retryCount >= (if j.maxRetries != 0 then j.maxRetries else cfg.maxJobRetries) then
                 s'.jobs[id] == j.(status := Failed, error := Some(GENERIC_CHAT_ERROR), retryCount := j.retryCount + 1)
               else
                 && Free(s'.jobs[id]) && SameRequest(j, s'.jobs[id]) && s'.jobs[id].status == Queued
                 && s'.jobs[id].retryCount == j.retryCount + 1
                 && s'.jobs[id].targetKind == if gpuWorkers then j.targetKind else Cpu
  {
    hide Inv, JobOk, Release, DropProcessing, RemoveOne, RPush, Finish;
    var j := s.jobs[id];
    Roots(cfg, s, id);
    assert id.ChildOf? <==> j.root.Some?;
    match ReapBranch(cfg, s, id, now)
    case DropCancelled =>
      FinishRecord(s, id, j.(status := Cancelled), j.worker);
      if j.target.Some? {
        FinishRecord(s.(lists := RemoveOne(s.lists, Dispatch(PoolFor(j.cls), j.target.value), id)), id,
                     j.(status := Cancelled), j.worker);
      }
    case FailDeadline => FinishRecord(s, id, j.(status := Failed, error := Some(DEADLINE_EXCEEDED_ERROR)), j.worker);
    case FailRetries =>
      FinishRecord(s, id, j.(retryCount := j.retryCount + 1).(status := Failed, error := Some(GENERIC_CHAT_ERROR)),
                   j.worker);
    case _ =>
  }

  lemma FinishRecord(s: State, id: JobId, j: Job, worker: Option<WorkerId>)
    requires j.root != Some(id)
    ensures var s' := Finish(s, id, j, worker);
            id in s'.jobs && s'.jobs[id] == j && id !in s'.active
  {
    hide Release, DropProcessing;
  }
}
