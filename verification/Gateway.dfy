/**
  The gateway as the object the source writes: fields for the Redis structures, methods that
  update them command by command, each proved against its function on store values.
*/
module Gateway {
  import opened Common
  import opened RedisLists
  import opened Jobs
  import opened Admission
  import opened Lifecycle
  import opened Ledger
  import opened Invariant
  import opened Steps
  import opened Runs

  datatype EnqueueOutcome = Accepted | AlreadyThere | Saturated | UnknownModel
  datatype ChildOutcome = Created | Linked | Refused | Raised

  /** The answers of `cancel_job`; another user's job raises. */
  datatype CancelAnswer = CancelForbidden | CancelIgnored | CancelAccepted

  /** The answers of `get_linked_child_job_id`; a link to a record that is gone raises. */
  datatype LinkAnswer = NoLink | LinkTo(child: JobId) | LinkBroken

  class LLMGateway {
    const cfg: Config
    var jobs: map<JobId, Job>
    var lists: map<Key, seq<JobId>>
    var counters: Counters
    var active: map<JobId, int>

    constructor (cfg: Config)
      ensures this.cfg == cfg && View() == EMPTY
    {
      this.cfg := cfg;
      jobs, lists, counters, active := map[], map[], map[], map[];
    }

    function View(): State
      reads this
    {
      State(jobs, lists, counters, active)
    }

    // -------------------------------------------------------------- reading

    /** `get_total_pending_jobs`. */
    method GetTotalPendingJobs() returns (total: nat)
      ensures total == PendingTotal(lists)
    {
      total := 0;
      for i := 0 to |QUEUE_ORDER|
        invariant total + PendingIn(lists, QUEUE_ORDER[i..]) == PendingTotal(lists)
      {
        assert QUEUE_ORDER[i..][1..] == QUEUE_ORDER[i + 1..];
        total := total + |ListAt(lists, QUEUE_ORDER[i])|;
      }
    }

    /** `_dynamic_queue_limit`, over the configured targets and workers. */
    method DynamicQueueLimit() returns (limit: nat)
      ensures limit == QueueLimit(cfg)
    {
      var clusterTokens := 0;
      var left := cfg.targets.Keys;
      while left != {}
        invariant left <= cfg.targets.Keys
        invariant clusterTokens + BaseSum(cfg.targets, left) == ClusterTokens(cfg)
        decreases |left|
      {
        var t :| t in left;
        BaseSumSplit(cfg.targets, left, t);
        clusterTokens := clusterTokens + BaseTokens(cfg.targets[t]);
        left := left - {t};
      }
      limit := Max(cfg.minQueueDepth, clusterTokens * cfg.queueFactor + cfg.workerCount * cfg.workerWeight);
    }

    // -------------------------------------------------------------- enqueue

    /** `enqueue_job`; the new id is supplied by the caller. */
    method EnqueueJob(id: JobId, req: Request, root: Option<JobId>) returns (outcome: EnqueueOutcome)
      modifies this
      ensures View() == Enqueue(cfg, old(View()), id, req, root)
      ensures outcome == if id in old(jobs) then AlreadyThere
                         else if PendingTotal(old(lists)) >= QueueLimit(cfg) then Saturated
                         else if req.sizeBytes.None? then UnknownModel
                         else Accepted
    {
      if id in jobs {
        return AlreadyThere;
      }
      var pending := GetTotalPendingJobs();
      var limit := DynamicQueueLimit();
      if pending >= limit {
        return Saturated;
      }
      if req.sizeBytes.None? {
        return UnknownModel;
      }
      var job := NewJob(cfg, req, req.sizeBytes.value, root);
      jobs := jobs[id := job];
      lists := RPush(lists, Pending(job.cls, job.priority), id);
      outcome := Accepted;
    }

    // -------------------------------------------------------------- finishing

    /** `_release_reserved_capacity`: decrement, then rewrite the usage hash, then drop a dead model reference. */
    method ReleaseReservedCapacity(j: Job)
      modifies this`counters
      ensures counters == Release(old(counters), j)
    {
      hide HIncr, ClampUsage, CounterAt;
      if j.target.None? {
        return;
      }
      var t := j.target.value;
      counters := HIncr(counters, t, Tokens, 0 - j.tokens);
      counters := HIncr(counters, t, TokensOf(j.cls), 0 - j.tokens);
      counters := HIncr(counters, t, Vram, 0 - j.vram);
      counters := HIncr(counters, t, Ram, 0 - j.ram);
      counters := HIncr(counters, t, ActiveJobs, -1);
      if j.model != "" {
        counters := HIncr(counters, t, ModelRef(j.model), -1);
      }
      counters := ClampUsage(counters, t);
      if j.model != "" {
        var remaining := CounterAt(counters, t, ModelRef(j.model));
        if remaining <= 0 {
          counters := counters - {(t, ModelRef(j.model))};
        }
      }
    }

    method RemoveFromProcessing(worker: Option<WorkerId>, id: JobId)
      modifies this`lists
      ensures lists == DropProcessing(old(lists), worker, id)
    {
      if worker.Some? {
        lists := RemoveOne(lists, Processing(worker.value), id);
      }
    }

    /** `_synthesize_root_terminal_state`. */
    method SynthesizeRoot(id: JobId, j: Job)
      modifies this`jobs
      ensures jobs == Synthesize(old(jobs), id, j)
    {
      if j.root.None? || j.root.value == id || j.root.value !in jobs {
        return;
      }
      var r := jobs[j.root.value];
      if r.status.Terminal() {
        return;
      }
      r := r.(status := j.status, child := Some(id), stage := StageFor(j.status));
      if j.status == Completed {
        r := r.(result := j.result, error := None);
      } else if j.status == Failed {
        var text := if j.error.Some? && j.error.value != "" then j.error.value else GENERIC_CHAT_ERROR;
        r := r.(result := None, error := Some(text));
      } else if j.status == Cancelled {
        r := r.(result := None, error := None);
      }
      jobs := jobs[j.root.value := r];
    }

    /** The shared tail of the terminal calls. */
    method FinishJob(id: JobId, j: Job, worker: Option<WorkerId>)
      modifies this
      ensures View() == Finish(old(View()), id, j, worker)
    {
      jobs := jobs[id := j];
      SynthesizeRoot(id, j);
      ReleaseReservedCapacity(j);
      RemoveFromProcessing(Either(worker, j.worker), id);
      active := active - {id};
    }

    method MarkJobCompleted(id: JobId, text: string, worker: Option<WorkerId>)
      modifies this
      ensures View() == MarkCompleted(old(View()), id, text, worker)
    {
      if id in jobs {
        FinishJob(id, jobs[id].(status := Completed, result := Some(text)), worker);
      }
    }

    method MarkJobFailed(id: JobId, error: string, worker: Option<WorkerId>)
      modifies this
      ensures View() == MarkFailed(old(View()), id, error, worker)
    {
      if id in jobs {
        FinishJob(id, jobs[id].(status := Failed, error := Some(error)), worker);
      }
    }

    method MarkJobCancelled(id: JobId, worker: Option<WorkerId>)
      modifies this
      ensures View() == MarkCancelled(old(View()), id, worker)
    {
      if id in jobs && !jobs[id].status.Terminal() {
        FinishJob(id, jobs[id].(status := Cancelled), worker);
      }
    }

    // -------------------------------------------------------------- cancel

    /** `cancel_job`. */
    method CancelJob(id: JobId, user: string) returns (answer: CancelAnswer)
      modifies this
      ensures View() == Cancel(old(View()), id, user)
      ensures answer == CancelForbidden <==> id in old(jobs) && user != "" && old(jobs)[id].user != user
      ensures answer == CancelAccepted <==>
                id in old(jobs) && (user == "" || old(jobs)[id].user == user) && !old(jobs)[id].status.Terminal()
      ensures answer != CancelAccepted ==> View() == old(View())
    {
      if id !in jobs {
        return CancelIgnored;
      }
      if user != "" && jobs[id].user != user {
        return CancelForbidden;
      }
      if jobs[id].status.Terminal() {
        return CancelIgnored;
      }
      var j := jobs[id];
      answer := CancelAccepted;
      if j.cancelRequested {
        return;
      }
      if j.status == Queued {
        lists := RemoveOne(lists, Pending(j.cls, j.priority), id);
        MarkJobCancelled(id, None);
        return;
      }
      if j.status == Admitted && j.target.Some? {
        lists := RemoveOne(lists, Dispatch(PoolFor(j.cls), j.target.value), id);
        MarkJobCancelled(id, None);
        return;
      }
      var handled := PropagateCancel(j);
      if !handled {
        jobs := jobs[id := j.(cancelRequested := true)];
      }
    }

    /** `_propagate_cancel_to_linked_child`. */
    method PropagateCancel(j: Job) returns (handled: bool)
      modifies this
      ensures handled == Propagates(old(View()), j)
      ensures View() == if handled then Propagate(old(View()), j) else old(View())
    {
      if j.child.None? || j.child.value !in jobs {
        return false;
      }
      var id := j.child.value;
      var c := jobs[id];
      if c.status.Terminal() {
        return false;
      }
      if c.status == Queued {
        lists := RemoveOne(lists, Pending(c.cls, c.priority), id);
        MarkJobCancelled(id, None);
        return true;
      }
      if c.status == Admitted {
        if c.target.None? {
          return false;
        }
        lists := RemoveOne(lists, Dispatch(PoolFor(c.cls), c.target.value), id);
        MarkJobCancelled(id, None);
        return true;
      }
      if !c.cancelRequested {
        jobs := jobs[id := c.(cancelRequested := true)];
      }
      return true;
    }

    // -------------------------------------------------------------- parser root and child

    method GetLinkedChild(root: JobId) returns (answer: LinkAnswer)
      modifies this
      ensures View() == LinkChild(old(View()), root)
      ensures answer == if root !in jobs || jobs[root].child.None? then NoLink
                        else if jobs[root].child.value in jobs then LinkAnswer.LinkTo(jobs[root].child.value)
                        else LinkBroken
    {
      if root !in jobs {
        return NoLink;
      }
      if jobs[root].child.Some? {
        if jobs[root].child.value !in jobs {
          return LinkBroken;
        }
        return LinkAnswer.LinkTo(jobs[root].child.value);
      }
      if ChildOf(root) !in jobs {
        return NoLink;
      }
      jobs := jobs[root := jobs[root].(child := Some(ChildOf(root)))];
      answer := LinkAnswer.LinkTo(ChildOf(root));
    }

    /** `enqueue_child_job_once`. */
    method EnqueueChildOnce(root: JobId, req: Request) returns (outcome: ChildOutcome)
      modifies this
      ensures View() == CreateChild(cfg, old(View()), root, req, true)
      ensures outcome == Created ==> ChildOf(root) !in old(jobs) && ChildOf(root) in jobs
      ensures outcome in {Created, Linked} ==> root in jobs && jobs[root].child.Some? && jobs[root].child.value in jobs
      ensures outcome in {Created, Linked} && old(root in jobs && jobs[root].child.None?) ==>
                jobs[root].child == Some(ChildOf(root)) && ChildOf(root) in jobs
      ensures outcome == Refused ==> root in jobs && (jobs[root].status.Terminal() || jobs[root].cancelRequested)
      ensures outcome in {Refused, Raised} ==> View() == old(View())
    {
      if root !in jobs {
        return Raised;
      }
      if jobs[root].child.Some? {
        return if jobs[root].child.value in jobs then Linked else Raised;
      }
      if jobs[root].status.Terminal() || jobs[root].cancelRequested {
        return Refused;
      }
      if ChildOf(root) in jobs {
        outcome := Linked;
      } else {
        if req.kind != FileChatJob {
          return Raised;
        }
        var enqueued := EnqueueJob(ChildOf(root), ChildRequest(View(), root, req), Some(root));
        if enqueued != Accepted {
          return Raised;
        }
        outcome := Created;
      }
      jobs := jobs[root := jobs[root].(child := Some(ChildOf(root)))];
    }

    method MarkJobWaitingOnChild(id: JobId, child: JobId, worker: Option<WorkerId>)
      modifies this
      ensures View() == WaitOnChild(old(View()), id, child, worker)
    {
      if id !in jobs {
        return;
      }
      var snapshot := jobs[id];
      jobs := jobs[id := Unassigned(snapshot).(child := Some(child), stage := ChildEnqueued)];
      ReleaseReservedCapacity(snapshot);
      RemoveFromProcessing(Either(worker, snapshot.worker), id);
      active := active - {id};
    }

    // -------------------------------------------------------------- admit, claim, renew

    /** The counter pipeline of an admission. */
    method ReserveCapacity(t: TargetId, j: Job)
      modifies this`counters
      ensures counters == Reserve(old(counters), t, j)
    {
      hide HIncr;
      counters := HIncr(counters, t, Tokens, j.tokens);
      counters := HIncr(counters, t, TokensOf(j.cls), j.tokens);
      counters := HIncr(counters, t, Vram, j.vram);
      counters := HIncr(counters, t, Ram, j.ram);
      counters := HIncr(counters, t, ActiveJobs, 1);
      counters := HIncr(counters, t, ModelRef(j.model), 1);
    }

    /** `try_admit_job`, under the target lock. */
    method TryAdmitJob(id: JobId, queue: Key, t: TargetId, r: Report, gpuWorkers: bool, now: int)
      returns (admitted: bool)
      requires cfg.Valid() && t in cfg.targets
      modifies this
      ensures View() == TryAdmit(cfg, old(View()), id, queue, t, r, gpuWorkers, now)
      ensures admitted == Admits(cfg, old(View()), id, queue, t, r, gpuWorkers)
    {
      hide Reserve, Evaluate, LRem, CounterAt, ReadUsage, RPush, RemoveOne, AdmittedRecord, PoolFor;
      if id !in jobs || jobs[id].status != Queued {
        return false;
      }
      var j := Downgrade(jobs[id], gpuWorkers);
      if j.targetKind != jobs[id].targetKind {
        jobs := jobs[id := j];
      }
      assert jobs == old(jobs)[id := j];
      var decision := Evaluate(cfg, j, cfg.targets[t], ReadUsage(counters, t, j.model), r);
      if decision == Reject {
        return false;
      }
      LRemCounts(ListAt(lists, queue), id);
      if |LRem(ListAt(lists, queue), id)| == |ListAt(lists, queue)| {
        return false;
      }
      lists := RemoveOne(lists, queue, id);
      HandToDispatch(id, j.cls, t, AdmittedRecord(cfg, j, t, decision, now));
      admitted := true;
    }

    /** The reservation and the hand-over to dispatch, once the pending entry is gone. */
    method HandToDispatch(id: JobId, cls: Workload, t: TargetId, a: Job)
      modifies this
      ensures View() == State(old(jobs)[id := a], RPush(old(lists), Dispatch(PoolFor(cls), t), id),
                              Reserve(old(counters), t, a), old(active)[id := a.lease])
    {
      hide Reserve, RPush;
      ReserveCapacity(t, a);
      jobs := jobs[id := a];
      active := active[id := a.lease];
      lists := RPush(lists, Dispatch(PoolFor(cls), t), id);
    }

    method RequeueForPending(id: JobId, j: Job)
      modifies this
      ensures View() == Requeue(old(View()), id, j)
    {
      jobs := jobs[id := Unassigned(j).(status := Queued)];
      lists := RPush(lists, Pending(j.cls, j.priority), id);
    }

    /** `claim_dispatch_job`. */
    method ClaimDispatchJob(w: WorkerId, pool: Pool, t: TargetId, kind: Option<TargetKind>, gpuWorkers: bool, now: int)
      returns (claimed: Option<JobId>)
      modifies this
      ensures View() == Claim(cfg, old(View()), w, pool, t, kind, gpuWorkers, now)
      ensures claimed == if Starts(old(View()), pool, t, kind, now) then Claimable(old(View()), pool, t) else None
      ensures claimed.Some? ==> claimed.value in jobs
                                && jobs[claimed.value].status == Running && jobs[claimed.value].worker == Some(w)
    {
      var source := Dispatch(pool, t);
      var destination := Processing(w);
      var xs := ListAt(lists, source);
      if xs == [] {
        return None;
      }
      var id := xs[|xs| - 1];
      lists := PopToProcessing(lists, source, destination);
      if id !in jobs {
        lists := RemoveOne(lists, destination, id);
        return None;
      }
      var j := jobs[id];
      if kind.Some? && j.targetKind != kind.value {
        lists := RemoveOne(lists, destination, id);
        ReleaseReservedCapacity(j);
        active := active - {id};
        RequeueForPending(id, Downgrade(j, gpuWorkers));
        return None;
      }
      if Expired(j, now) {
        MarkJobFailed(id, DEADLINE_EXCEEDED_ERROR, Some(w));
        return None;
      }
      jobs := jobs[id := j.(status := Running, worker := Some(w), lease := now + cfg.leaseSeconds)];
      active := active[id := now + cfg.leaseSeconds];
      claimed := Some(id);
    }

    method RenewJobLease(id: JobId, now: int)
      modifies this
      ensures View() == Renew(cfg, old(View()), id, now)
    {
      if id in jobs && (jobs[id].status == Admitted || jobs[id].status == Running) {
        jobs := jobs[id := jobs[id].(lease := now + cfg.leaseSeconds)];
        active := active[id := now + cfg.leaseSeconds];
      }
    }

    // -------------------------------------------------------------- the reaper

    /** One turn of the reaper's loop. */
    method ReapJob(id: JobId, gpuWorkers: bool, now: int) returns (recovered: bool)
      modifies this
      ensures View() == Reap(cfg, old(View()), id, gpuWorkers, now)
      ensures recovered == (ReapBranch(cfg, old(View()), id, now) == Retry)
    {
      hide Finish, Release, RemoveOne, DropProcessing, Requeue;
      if id !in jobs || jobs[id].status.Terminal() {
        active := active - {id};
        return false;
      }
      var j := jobs[id];
      if j.lease > now {
        return false;
      }
      if StaleCancel(id, j) {
        if j.status == Admitted && j.target.Some? {
          lists := RemoveOne(lists, Dispatch(PoolFor(j.cls), j.target.value), id);
        }
        MarkJobCancelled(id, j.worker);
        return false;
      }
      if Expired(j, now) {
        FinishJob(id, j.(status := Failed, error := Some(DEADLINE_EXCEEDED_ERROR)), j.worker);
        return false;
      }
      var retryCount := j.retryCount + 1;
      if retryCount > RetryBound(cfg, j) {
        FinishJob(id, j.(retryCount := retryCount).(status := Failed, error := Some(GENERIC_CHAT_ERROR)), j.worker);
        return false;
      }
      ReleaseReservedCapacity(j);
      RemoveFromProcessing(j.worker, id);
      active := active - {id};
      RequeueForPending(id, Downgrade(j.(retryCount := retryCount), gpuWorkers));
      recovered := true;
    }

    /** The index entries whose score is between 0 and now, each once, by ascending score. */
    method StaleIds(now: int) returns (ids: seq<JobId>)
      ensures forall id :: id in ids <==> id in active && 0 <= active[id] <= now
      ensures forall a, b | 0 <= a < b < |ids| :: ids[a] != ids[b] && active[ids[a]] <= active[ids[b]]
    {
      ids := [];
      var left := set id | id in active && 0 <= active[id] <= now;
      ghost var due := left;
      while left != {}
        invariant left <= due <= active.Keys
        invariant forall id :: id in ids <==> id in due - left
        invariant forall a | 0 <= a < |ids| :: ids[a] in active
        invariant forall a, b | 0 <= a < b < |ids| :: ids[a] != ids[b] && active[ids[a]] <= active[ids[b]]
        invariant forall a, id | 0 <= a < |ids| && id in left :: active[ids[a]] <= active[id]
        decreases |left|
      {
        var first := LeastScore(left);
        assert first !in ids;
        ids := ids + [first];
        left := left - {first};
      }
    }

    /** The member of least score. */
    method LeastScore(ids: set<JobId>) returns (first: JobId)
      requires ids != {} && ids <= active.Keys
      ensures first in ids && forall id | id in ids :: active[first] <= active[id]
    {
      first :| first in ids;
      var left := ids - {first};
      while left != {}
        invariant left <= ids && first in ids
        invariant forall id | id in ids - left :: active[first] <= active[id]
        decreases |left|
      {
        var id :| id in left;
        if active[id] < active[first] {
          first := id;
        }
        left := left - {id};
      }
    }

    /**
      `requeue_stale_jobs`. The whole pass is a run of single reaps over the ids found stale at
      its start; when it fails or re-queues none that is still admitted, the run keeps the discipline.
    */
    method RequeueStaleJobs(gpuWorkers: bool, now: int) returns (recovered: nat, ghost trace: seq<Event>)
      requires cfg.Valid()
      modifies this
      ensures View() == After(cfg, old(View()), trace)
      ensures forall e | e in trace :: e.ReapJob? && e.now == now && e.id in old(active)
                && 0 <= old(active)[e.id] <= now
      ensures |trace| == |set id | id in old(active) && 0 <= old(active)[id] <= now|
      ensures recovered == CountIn(cfg, old(View()), trace, Recovers(cfg))
      ensures old(Inv(cfg, View()))
              && (forall id | id in old(active) && 0 <= old(active)[id] <= now :: Reapable(cfg, old(View()), id, now))
              ==> Disciplined(cfg, old(View()), trace) && Inv(cfg, View())
    {
      hide Inv, Next, Reap, Allowed;
      var ids := StaleIds(now);
      ghost var start := View();
      ghost var good := Inv(cfg, start)
        && forall id | id in start.active && 0 <= start.active[id] <= now :: Reapable(cfg, start, id, now);
      recovered, trace := 0, [];
      for i := 0 to |ids|
        invariant |trace| == i
        invariant recovered == CountIn(cfg, start, trace, Recovers(cfg))
        invariant forall a | 0 <= a < i :: trace[a] == Event.ReapJob(ids[a], gpuWorkers, now)
        invariant View() == After(cfg, start, trace)
        invariant good ==> Disciplined(cfg, start, trace) && Inv(cfg, View())
        invariant good ==> forall a | i <= a < |ids| :: Reapable(cfg, View(), ids[a], now)
      {
        ghost var before := View();
        var one := ReapJob(ids[i], gpuWorkers, now);
        ghost var e := Event.ReapJob(ids[i], gpuWorkers, now);
        assert View() == Next(cfg, before, e) by { NextReap(cfg, before, ids[i], gpuWorkers, now); }
        if good {
          ReapKeepsOthers(cfg, before, ids, i, gpuWorkers, now);
          StepKeeps(cfg, before, e);
        }
        AfterAppend(cfg, start, trace, e);
        CountAppend(cfg, start, trace, e, Recovers(cfg));
        trace := trace + [e];
        if one {
          recovered := recovered + 1;
        }
      }
      UniqueCount(ids, set id | id in start.active && 0 <= start.active[id] <= now);
    }
  }

  /** Whether a claim starts the job it pops. */
  predicate Starts(s: State, pool: Pool, t: TargetId, kind: Option<TargetKind>, now: int) {
    && Claimable(s, pool, t).Some? && Claimable(s, pool, t).value in s.jobs
    && var j := s.jobs[Claimable(s, pool, t).value];
       (kind.None? || j.targetKind == kind.value) && !Expired(j, now)
  }

  /** The event is a reap that puts its job back in the queue. */
  ghost function Recovers(cfg: Config): (State, Event) -> bool {
    (s: State, e: Event) => e.ReapJob? && ReapBranch(cfg, s, e.id, e.now) == Retry
  }

  lemma NextReap(cfg: Config, s: State, id: JobId, gpuWorkers: bool, now: int)
    requires cfg.Valid()
    ensures Next(cfg, s, Event.ReapJob(id, gpuWorkers, now)) == Reap(cfg, s, id, gpuWorkers, now)
    ensures Reapable(cfg, s, id, now) ==> Allowed(cfg, s, Event.ReapJob(id, gpuWorkers, now))
  {
  }

  /** Reaping one id leaves the others in the index and never admits one. */
  lemma ReapKeepsOthers(cfg: Config, s: State, ids: seq<JobId>, i: nat, gpuWorkers: bool, now: int)
    requires cfg.Valid() && Inv(cfg, s) && i < |ids|
    requires forall a, b | 0 <= a < b < |ids| :: ids[a] != ids[b]
    requires forall a | i <= a < |ids| :: Reapable(cfg, s, ids[a], now)
    ensures Allowed(cfg, s, Event.ReapJob(ids[i], gpuWorkers, now))
    ensures forall a | i < a < |ids| :: Reapable(cfg, Reap(cfg, s, ids[i], gpuWorkers, now), ids[a], now)
  {
    hide Inv, Reap, SeatsKept, Mirrored;
    var s' := Reap(cfg, s, ids[i], gpuWorkers, now);
    ReapOk(cfg, s, ids[i], gpuWorkers, now);
    NextReap(cfg, s, ids[i], gpuWorkers, now);
    forall a | i < a < |ids|
      ensures Reapable(cfg, s', ids[a], now)
    {
      assert Reapable(cfg, s, ids[a], now);
      ReapOther(cfg, s, ids[i], ids[a], gpuWorkers, now);
    }
  }

  lemma ReapOther(cfg: Config, s: State, id: JobId, x: JobId, gpuWorkers: bool, now: int)
    requires Inv(cfg, s) && Reapable(cfg, s, id, now) && Reapable(cfg, s, x, now) && x != id
    ensures Reapable(cfg, Reap(cfg, s, id, gpuWorkers, now), x, now)
  {
    hide Inv;
    var s' := Reap(cfg, s, id, gpuWorkers, now);
    ReapOk(cfg, s, id, gpuWorkers, now);
    if ReapBranch(cfg, s, id, now) !in {Forget, Keep} {
      hide Reap;
      assert x in s.jobs ==> Spared(s.jobs[x], s'.jobs[x], x, id, s'.jobs[id]);
    }
  }

  lemma {:induction false} UniqueCount<T>(xs: seq<T>, all: set<T>)
    requires forall x :: x in xs <==> x in all
    requires forall a, b | 0 <= a < b < |xs| :: xs[a] != xs[b]
    ensures |xs| == |all|
  {
    if xs == [] {
      assert all == {};
    } else {
      var rest := xs[1..];
      forall x
        ensures x in rest <==> x in all - {xs[0]}
      {
        assert xs == [xs[0]] + rest;
      }
      UniqueCount(rest, all - {xs[0]});
    }
  }

  lemma {:induction false} BaseSumSplit(targets: map<TargetId, Target>, among: set<TargetId>, t: TargetId)
    requires among <= targets.Keys && t in among
    ensures BaseSum(targets, among) == BaseTokens(targets[t]) + BaseSum(targets, among - {t})
    decreases |among|
  {
    var first :| first in among && BaseSum(targets, among)
        == BaseTokens(targets[first]) + BaseSum(targets, among - {first});
    if first != t {
      BaseSumSplit(targets, among - {first}, t);
      BaseSumSplit(targets, among - {t}, first);
      assert among - {first} - {t} == among - {t} - {first};
    }
  }
}
