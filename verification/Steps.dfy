/** Every gateway call, made under the run discipline, keeps the invariant. */
module Steps {
  import opened Common
  import opened RedisLists
  import opened Jobs
  import opened Admission
  import opened Lifecycle
  import opened Ledger
  import opened Invariant

  // ---------------------------------------------------------------- enqueue and link

  /** What the callers of `enqueue_job` guarantee. */
  ghost predicate GoodRequest(req: Request) {
    req.model != "" && Pending(req.cls, NormalizePriority(req.cls, req.priority)) in QUEUE_ORDER
  }

  lemma NotHeldNowhere(s: State, id: JobId)
    requires id !in s.jobs || !Held(s, id)
    ensures id !in HeldSet(s)
    ensures forall t :: id !in Holders(s, t)
  {
  }

  lemma EnqueueOk(cfg: Config, s: State, id: JobId, req: Request, root: Option<JobId>)
    requires Inv(cfg, s) && GoodRequest(req) && Enqueues(cfg, s, id, req)
    requires id.Fresh? ==> root.None?
    requires id.ChildOf? ==> root == Some(id.parent) && id.parent in s.jobs
                             && s.jobs[id.parent].kind == ParseJob && req.kind == FileChatJob
    ensures Frame(s, Enqueue(cfg, s, id, req, root), id)
    ensures Inv(cfg, Enqueue(cfg, s, id, req, root))
  {
    hide Balanced, WithinCapacity, Total, PendingIn, BaseSum, Holders, HeldSet, QueueLimit;
    var s' := Enqueue(cfg, s, id, req, root);
    var j := s'.jobs[id];
    RPushOccurs(s.lists, Home(j), id);
    assert Frame(s, s', id);
    assert !Held(s', id);
    PushLoads(s.lists, Home(j), id);
    HeldSetMoves(s, s', id);
    HeldBelowCluster(cfg, s);
    assert forall t :: id !in Holders(s', t) by { NotHeldNowhere(s', id); }
    assert id !in HeldSet(s') by { NotHeldNowhere(s', id); }
    Advance(cfg, s, s', id);
  }

  lemma SetFromRest<T>(a: set<T>, b: set<T>, x: T)
    requires a - {x} == b - {x} && (x in a <==> x in b)
    ensures a == b
  {
    forall y
      ensures y in a <==> y in b
    {
      assert y == x || (y in a <==> y in a - {x});
      assert y == x || (y in b <==> y in b - {x});
    }
  }

  /** When the moved job keeps its seat too, every target keeps its holders. */
  lemma SameHolders(cfg: Config, s: State, s': State, id: JobId, t: TargetId)
    requires SeatsKept(s, s', id) && id in s.jobs
    requires s.jobs[id].target == s'.jobs[id].target && s.jobs[id].cls == s'.jobs[id].cls
    requires Held(s, id) <==> Held(s', id)
    requires s'.counters == s.counters
    requires t in cfg.targets && WithinCapacity(cfg, s, t)
    ensures WithinCapacity(cfg, s', t)
  {
    OtherHoldersKept(s, s', id, t);
    assert id in Holders(s, t) <==> id in Holders(s', t);
    SetFromRest(Holders(s, t), Holders(s', t), id);
    if CounterAt(s.counters, t, Tokens) > BaseTokens(cfg.targets[t]) {
      var lone :| lone in s.jobs && Holders(s, t) == {lone} && s.jobs[lone].cls in {Chat, Parse};
      assert lone != id ==> SameSeat(s.jobs[lone], s'.jobs[lone]);
    }
  }

  /** The frame rule for a step that leaves all reservations as they are. */
  lemma StayOk(cfg: Config, s: State, s': State, id: JobId)
    requires Inv(cfg, s) && id in s.jobs && Frame(s, s', id) && JobOk(cfg, s', id)
    requires s'.counters == s.counters && Held(s, id) == Held(s', id)
    requires s.jobs[id].target == s'.jobs[id].target && s.jobs[id].cls == s'.jobs[id].cls
    requires forall f :: Weight(f, s'.jobs[id]) == Weight(f, s.jobs[id])
    requires PendingTotal(s'.lists) <= PendingTotal(s.lists)
    ensures Inv(cfg, s')
  {
    hide Balanced, Total, PendingIn, BaseSum;
    forall t | t in cfg.targets
      ensures WithinCapacity(cfg, s', t)
    {
      SameHolders(cfg, s, s', id, t);
    }
    HeldSetMoves(s, s', id);
    Advance(cfg, s, s', id);
  }

  /** A change to a record that keeps its seat, status and link discipline. */
  lemma RecordOnlyOk(cfg: Config, s: State, s': State, id: JobId)
    requires Inv(cfg, s) && id in s.jobs
    requires id in s'.jobs && s' == s.(jobs := s'.jobs) && s'.jobs == s.jobs[id := s'.jobs[id]]
    requires SameSeat(s.jobs[id], s'.jobs[id]) && s'.jobs[id].status == s.jobs[id].status
    requires Linked(s'.jobs, id)
    ensures Frame(s, s', id)
    ensures Inv(cfg, s')
  {
    hide Balanced, WithinCapacity, Total, PendingIn, BaseSum, Holders, HeldSet;
    assert JobOk(cfg, s, id);
    assert Frame(s, s', id);
    StayOk(cfg, s, s', id);
  }

  // ---------------------------------------------------------------- giving a reservation back

  /** After a job's only listing is dropped, no list has it. */
  lemma Unlisted(s: State, id: JobId, lists: map<Key, seq<JobId>>, k: Key)
    requires id in s.jobs && Seated(s, id)
    requires lists == RemoveOne(s.lists, k, id)
    requires Occurs(s.lists, Home(s.jobs[id]), id) > 0 ==> k == Home(s.jobs[id])
    ensures forall k' :: Occurs(lists, k', id) == 0
    ensures forall k', x | x != id :: Occurs(lists, k', x) == Occurs(s.lists, k', x)
    ensures PendingTotal(lists) <= PendingTotal(s.lists)
  {
    RemoveOneOccurs(s.lists, k, id);
    RemoveUnloads(s.lists, k, id);
  }

  lemma ReleaseFollows(s: State, s': State, id: JobId, j: Job)
    requires Balanced(s) && id in s.jobs && id in s'.jobs && j.model != "" && SameSeat(j, s.jobs[id])
    requires j.target.Some? ==> Held(s, id)
    requires s'.counters == Release(s.counters, j) && !Held(s', id)
    ensures CountersFollow(s, s', id)
  {
    hide Balanced, Total, Release;
    if j.target.Some? {
      HeldIsCovered(s, id);
      forall f: Field
        ensures Weight(f, j) == Weight(f, s.jobs[id])
      {
      }
    }
    ReleaseSubtracts(s.counters, j);
  }

  /** The common end of every step that takes a job out of its list and returns its reservation. */
  lemma LeaveOk(cfg: Config, s: State, s': State, id: JobId, j: Job)
    requires Inv(cfg, s) && id in s.jobs && Frame(s, s', id)
    requires SameSeat(j, s.jobs[id]) && s'.counters == Release(s.counters, j)
    requires j.target.Some? ==> Held(s, id)
    requires JobOk(cfg, s', id) && !Held(s', id)
    requires PendingTotal(s'.lists) <= PendingTotal(s.lists) + if Held(s, id) then 1 else 0
    requires id !in s'.active
    ensures Inv(cfg, s')
  {
    assert JobOk(cfg, s, id);
    ReleaseFollows(s, s', id, j);
    GoneOk(cfg, s, s', id);
  }

  /** The same once the counters are known to follow. */
  lemma GoneOk(cfg: Config, s: State, s': State, id: JobId)
    requires Inv(cfg, s) && id in s.jobs && Frame(s, s', id) && CountersFollow(s, s', id)
    requires JobOk(cfg, s', id) && !Held(s', id)
    requires PendingTotal(s'.lists) <= PendingTotal(s.lists) + if Held(s, id) then 1 else 0
    requires id !in s'.active
    ensures Inv(cfg, s')
  {
    HeldSetMoves(s, s', id);
    Advance(cfg, s, s', id);
  }

  /** The job is over and no list has it. */
  ghost predicate Ended(s: State, id: JobId) {
    id in s.jobs && s.jobs[id].status.Terminal() && forall k :: Occurs(s.lists, k, id) == 0
  }

  lemma FinishFrame(s: State, s1: State, id: JobId, j: Job, worker: Option<WorkerId>)
    requires id in s.jobs && s1 == s.(lists := s1.lists) && j.kind == s.jobs[id].kind
    requires j.root.Some? ==> id == ChildOf(j.root.value) && j.root.value.Fresh?
    requires id.ChildOf? ==> j.root == Some(id.parent)
    requires forall k, x | x != id ::
               Occurs(DropProcessing(s1.lists, Either(worker, j.worker), id), k, x) == Occurs(s.lists, k, x)
    requires j.status.Terminal()
    ensures Frame(s, Finish(s1, id, j, worker), id)
    ensures Finish(s1, id, j, worker).jobs[id] == j
  {
    hide Release;
  }

  /** `Finish` on a job whose listing is dropped in the same step. */
  lemma FinishOk(cfg: Config, s: State, s1: State, id: JobId, j: Job, worker: Option<WorkerId>)
    requires Inv(cfg, s) && id in s.jobs
    requires s1 == s.(lists := s1.lists)
    requires SameSeat(j, s.jobs[id]) && j.child == s.jobs[id].child && j.status.Terminal()
    requires j.target.Some? ==> Held(s, id)
    requires var lists := DropProcessing(s1.lists, Either(worker, j.worker), id);
             && (forall k :: Occurs(lists, k, id) == 0)
             && (forall k, x | x != id :: Occurs(lists, k, x) == Occurs(s.lists, k, x))
             && PendingTotal(lists) <= PendingTotal(s.lists)
    ensures Ended(Finish(s1, id, j, worker), id)
    ensures Frame(s, Finish(s1, id, j, worker), id)
    ensures Inv(cfg, Finish(s1, id, j, worker))
  {
    hide Balanced, WithinCapacity, Total, PendingIn, BaseSum, Holders, HeldSet, Release, LRem, Bounded;
    var s' := Finish(s1, id, j, worker);
    assert JobOk(cfg, s, id);
    if j.root.Some? {
      assert JobOk(cfg, s, j.root.value);
    }
    FinishFrame(s, s1, id, j, worker);
    LeaveOk(cfg, s, s', id, j);
  }

  /** The worker whose processing list holds the job ends it. */
  lemma WorkerEndsOk(cfg: Config, s: State, id: JobId, j: Job, w: WorkerId)
    requires Inv(cfg, s) && id in s.jobs && id in ListAt(s.lists, Processing(w))
    requires SameSeat(j, s.jobs[id]) && j.child == s.jobs[id].child && j.status.Terminal()
    ensures Ended(Finish(s, id, j, Some(w)), id)
    ensures Frame(s, Finish(s, id, j, Some(w)), id)
    ensures Inv(cfg, Finish(s, id, j, Some(w)))
  {
    assert JobOk(cfg, s, id);
    assert Occurs(s.lists, Processing(w), id) > 0;
    Unlisted(s, id, RemoveOne(s.lists, Processing(w), id), Processing(w));
    FinishOk(cfg, s, s, id, j, Some(w));
  }

  lemma WaitOk(cfg: Config, s: State, id: JobId, w: WorkerId)
    requires Inv(cfg, s) && id in s.jobs && id in ListAt(s.lists, Processing(w))
    requires ChildOf(id) in s.jobs
    ensures Frame(s, WaitOnChild(s, id, ChildOf(id), Some(w)), id)
    ensures Inv(cfg, WaitOnChild(s, id, ChildOf(id), Some(w)))
  {
    hide Balanced, WithinCapacity, Total, PendingIn, BaseSum, Holders, HeldSet, Release;
    var s' := WaitOnChild(s, id, ChildOf(id), Some(w));
    assert JobOk(cfg, s, id) && JobOk(cfg, s, ChildOf(id));
    assert Occurs(s.lists, Processing(w), id) > 0;
    Unlisted(s, id, s'.lists, Processing(w));
    assert Frame(s, s', id);
    LeaveOk(cfg, s, s', id, s.jobs[id]);
  }

  /** A job goes from its dispatch or processing list back to pending. */
  lemma RequeueOk(cfg: Config, s: State, s1: State, id: JobId, j: Job)
    requires Inv(cfg, s) && id in s.jobs && Held(s, id)
    requires SameSeat(j, s.jobs[id]) && j.child == s.jobs[id].child
    requires s1.jobs == s.jobs && s1.counters == Release(s.counters, s.jobs[id]) && s1.active == s.active - {id}
    requires forall k :: Occurs(s1.lists, k, id) == 0
    requires forall k, x | x != id :: Occurs(s1.lists, k, x) == Occurs(s.lists, k, x)
    requires PendingTotal(s1.lists) <= PendingTotal(s.lists)
    ensures Frame(s, Requeue(s1, id, j), id)
    ensures Inv(cfg, Requeue(s1, id, j))
  {
    hide Balanced, WithinCapacity, Total, PendingIn, BaseSum, Holders, HeldSet, Release;
    var s' := Requeue(s1, id, j);
    assert JobOk(cfg, s, id);
    RPushOccurs(s1.lists, Pending(j.cls, j.priority), id);
    PushLoads(s1.lists, Pending(j.cls, j.priority), id);
    assert Frame(s, s', id);
    LeaveOk(cfg, s, s', id, s.jobs[id]);
  }

  // ---------------------------------------------------------------- cancel

  /** A job ended while it waits in its pending or dispatch list, which it leaves first. */
  lemma EndListedOk(cfg: Config, s: State, id: JobId)
    requires Inv(cfg, s) && id in s.jobs && s.jobs[id].status in {Queued, Admitted}
    ensures Ended(MarkCancelled(s.(lists := RemoveOne(s.lists, Home(s.jobs[id]), id)), id, None), id)
    ensures Frame(s, MarkCancelled(s.(lists := RemoveOne(s.lists, Home(s.jobs[id]), id)), id, None), id)
    ensures Inv(cfg, MarkCancelled(s.(lists := RemoveOne(s.lists, Home(s.jobs[id]), id)), id, None))
  {
    hide Balanced, WithinCapacity, Total, PendingIn, BaseSum, Holders, HeldSet, Release, Finish;
    var j := s.jobs[id];
    assert JobOk(cfg, s, id);
    var s1 := s.(lists := RemoveOne(s.lists, Home(j), id));
    Unlisted(s, id, s1.lists, Home(j));
    FinishOk(cfg, s, s1, id, j.(status := Cancelled), None);
  }

  lemma RequestCancelOk(cfg: Config, s: State, id: JobId)
    requires Inv(cfg, s) && id in s.jobs
    ensures Inv(cfg, RequestCancel(s, id))
  {
    assert JobOk(cfg, s, id);
    RecordOnlyOk(cfg, s, RequestCancel(s, id), id);
  }

  lemma CancelOk(cfg: Config, s: State, id: JobId, user: string)
    requires Inv(cfg, s)
    ensures Inv(cfg, Cancel(s, id, user))
  {
    hide Balanced, WithinCapacity, Total, PendingIn, BaseSum, Holders, HeldSet, Release, Finish;
    if id in s.jobs {
      var j := s.jobs[id];
      assert JobOk(cfg, s, id);
      if (user != "" && j.user != user) || j.status.Terminal() || j.cancelRequested {
      } else if j.status == Queued {
        EndListedOk(cfg, s, id);
      } else if j.status == Admitted && j.target.Some? {
        EndListedOk(cfg, s, id);
      } else if Propagates(s, j) {
        var c := j.child.value;
        assert JobOk(cfg, s, c);
        if s.jobs[c].status == Queued {
          EndListedOk(cfg, s, c);
        } else if s.jobs[c].status == Admitted {
          EndListedOk(cfg, s, c);
        } else if !s.jobs[c].cancelRequested {
          RequestCancelOk(cfg, s, c);
        }
      } else {
        RequestCancelOk(cfg, s, id);
      }
    }
  }

  // ---------------------------------------------------------------- admit

  lemma DowngradeOk(cfg: Config, s: State, id: JobId, gpuWorkers: bool)
    requires Inv(cfg, s) && id in s.jobs
    ensures Inv(cfg, s.(jobs := s.jobs[id := Downgrade(s.jobs[id], gpuWorkers)]))
  {
    assert JobOk(cfg, s, id);
    RecordOnlyOk(cfg, s, s.(jobs := s.jobs[id := Downgrade(s.jobs[id], gpuWorkers)]), id);
  }

  /** Class counters are part of the total. */
  lemma ClassBelowTotal(cfg: Config, s: State, t: TargetId)
    requires Balanced(s)
    ensures forall c :: 0 <= CounterAt(s.counters, t, TokensOf(c)) <= CounterAt(s.counters, t, Tokens)
  {
    forall c
      ensures 0 <= CounterAt(s.counters, t, TokensOf(c)) <= CounterAt(s.counters, t, Tokens)
    {
      TotalOrdered(s.jobs, Holders(s, t), TokensOf(c), Tokens);
    }
  }

  lemma {:induction false} TotalOrdered<K>(jobs: map<K, Job>, ids: set<K>, f: Field, g: Field)
    requires ids <= jobs.Keys
    requires forall id | id in ids :: Weight(f, jobs[id]) <= Weight(g, jobs[id])
    ensures Total(jobs, ids, f) <= Total(jobs, ids, g)
    decreases |ids|
  {
    if ids != {} {
      var id :| id in ids;
      TotalSplit(jobs, ids, id, f);
      TotalSplit(jobs, ids, id, g);
      TotalOrdered(jobs, ids - {id}, f, g);
    }
  }

  lemma {:induction false} ActiveCounts<K>(jobs: map<K, Job>, ids: set<K>)
    requires ids <= jobs.Keys
    ensures Total(jobs, ids, ActiveJobs) == |ids|
    decreases |ids|
  {
    if ids != {} {
      var id :| id in ids;
      TotalSplit(jobs, ids, id, ActiveJobs);
      ActiveCounts(jobs, ids - {id});
    }
  }

  /** An admitted job fits, or is the only job of a CPU target and a chat or parse job. */
  lemma AdmissionFits(cfg: Config, s: State, s': State, id: JobId, t: TargetId, j: Job, r: Report)
    requires Inv(cfg, s) && t in cfg.targets && id in s.jobs && !Held(s, id)
    requires j.cls == s.jobs[id].cls
    requires Decide(cfg, s, j, t, r).Admit?
    requires SeatsKept(s, s', id) && Held(s', id)
    requires s'.jobs[id].target == Some(t) && s'.jobs[id].cls == j.cls
    requires CounterAt(s'.counters, t, Tokens) == CounterAt(s.counters, t, Tokens) + Decide(cfg, s, j, t, r).tokens
    ensures WithinCapacity(cfg, s', t)
  {
    hide Evaluate, PendingIn, BaseSum;
    var u := ReadUsage(s.counters, t, j.model);
    ClassBelowTotal(cfg, s, t);
    if u.tokens + Decide(cfg, s, j, t, r).tokens > BaseTokens(cfg.targets[t]) {
      OversizeIsChatOrParse(cfg, j, cfg.targets[t], u, r);
      ActiveCounts(s.jobs, Holders(s, t));
      assert Holders(s, t) == {};
      OtherHoldersKept(s, s', id, t);
      SetFromRest({id}, Holders(s', t), id);
    }
  }

  lemma AdmitOk(cfg: Config, s: State, id: JobId, queue: Key, t: TargetId, r: Report, gpuWorkers: bool, now: int)
    requires Inv(cfg, s) && t in cfg.targets
    ensures Inv(cfg, TryAdmit(cfg, s, id, queue, t, r, gpuWorkers, now))
  {
    if id in s.jobs && s.jobs[id].status == Queued {
      if Admits(cfg, s, id, queue, t, r, gpuWorkers) {
        AdmittedOk(cfg, s, id, queue, t, r, gpuWorkers, now);
      } else {
        DowngradeOk(cfg, s, id, gpuWorkers);
      }
    }
  }

  /** Moving an id from one list to another. */
  lemma Relisted(lists: map<Key, seq<JobId>>, id: JobId, from: Key, to: Key)
    requires Occurs(lists, from, id) == 1 && from != to && from in QUEUE_ORDER && to !in QUEUE_ORDER
    requires forall k :: k != from ==> Occurs(lists, k, id) == 0
    ensures var after := RPush(RemoveOne(lists, from, id), to, id);
            && (forall k :: Occurs(after, k, id) == if k == to then 1 else 0)
            && (forall k, x | x != id :: Occurs(after, k, x) == Occurs(lists, k, x))
            && PendingTotal(after) == PendingTotal(lists) - 1
  {
    RemoveOneOccurs(lists, from, id);
    RPushOccurs(RemoveOne(lists, from, id), to, id);
    RemoveUnloads(lists, from, id);
    PushLoads(RemoveOne(lists, from, id), to, id);
  }

  lemma AdmitSeats(cfg: Config, s: State, id: JobId, queue: Key, t: TargetId, r: Report, gpuWorkers: bool, now: int)
    requires cfg.Valid() && t in cfg.targets && Admits(cfg, s, id, queue, t, r, gpuWorkers)
    requires Seated(s, id) && Sized(cfg, s.jobs[id])
    ensures var s' := TryAdmit(cfg, s, id, queue, t, r, gpuWorkers, now);
            && Frame(s, s', id) && Seated(s', id) && Held(s', id) && !Held(s, id)
            && Home(s'.jobs[id]) == Dispatch(PoolFor(s.jobs[id].cls), t)
            && PendingTotal(s'.lists) == PendingTotal(s.lists) - 1
  {
    hide Evaluate, Reserve, RPush, RemoveOne, PendingIn;
    var s' := TryAdmit(cfg, s, id, queue, t, r, gpuWorkers, now);
    assert Occurs(s.lists, queue, id) > 0;
    assert queue == Home(s.jobs[id]);
    Relisted(s.lists, id, queue, Home(s'.jobs[id]));
  }

  lemma AdmittedOk(cfg: Config, s: State, id: JobId, queue: Key, t: TargetId, r: Report, gpuWorkers: bool, now: int)
    requires Inv(cfg, s) && t in cfg.targets && Admits(cfg, s, id, queue, t, r, gpuWorkers)
    ensures Frame(s, TryAdmit(cfg, s, id, queue, t, r, gpuWorkers, now), id)
    ensures Inv(cfg, TryAdmit(cfg, s, id, queue, t, r, gpuWorkers, now))
  {
    hide Balanced, WithinCapacity, Total, PendingIn, BaseSum, HeldSet, Holders, Evaluate, Reserve, RPush, RemoveOne;
    var s' := TryAdmit(cfg, s, id, queue, t, r, gpuWorkers, now);
    var j := Downgrade(s.jobs[id], gpuWorkers);
    var a := s'.jobs[id];
    assert JobOk(cfg, s, id);
    AdmitSeats(cfg, s, id, queue, t, r, gpuWorkers, now);
    ReserveAdds(s.counters, t, a);
    HeldSetMoves(s, s', id);
    NotHeldNowhere(s, id);
    AdmissionFits(cfg, s, s', id, t, j, r);
    forall t' | t' in cfg.targets && id in Holders(s', t')
      ensures WithinCapacity(cfg, s', t')
    {
      HoldersTarget(s', id, t');
    }
    Advance(cfg, s, s', id);
  }

  lemma HoldersTarget(s: State, id: JobId, t: TargetId)
    requires id in Holders(s, t)
    ensures id in s.jobs && s.jobs[id].target == Some(t)
  {
  }

  // ---------------------------------------------------------------- claim and renew

  lemma PopOccurs(lists: map<Key, seq<JobId>>, from: Key, to: Key)
    requires ListAt(lists, from) != [] && from != to && from !in QUEUE_ORDER && to !in QUEUE_ORDER
    ensures var xs := ListAt(lists, from);
            var id := xs[|xs| - 1];
            var after := PopToProcessing(lists, from, to);
            && Occurs(lists, from, id) > 0
            && (forall k, x {:trigger Occurs(after, k, x)} ::
                  Occurs(after, k, x) == Occurs(lists, k, x) - (if x == id && k == from then 1 else 0)
                                                             + (if x == id && k == to then 1 else 0))
            && PendingTotal(after) == PendingTotal(lists)
  {
    var xs := ListAt(lists, from);
    assert xs == xs[..|xs| - 1] + [xs[|xs| - 1]];
    PendingReplaced(lists, QUEUE_ORDER, from, xs[..|xs| - 1]);
    PendingReplaced(lists[from := xs[..|xs| - 1]], QUEUE_ORDER, to, [xs[|xs| - 1]] + ListAt(lists, to));
  }

  /** A popped id: it was seated in the dispatch list, so it is an admitted or already ended job. */
  lemma Popped(cfg: Config, s: State, w: WorkerId, pool: Pool, t: TargetId)
    requires Inv(cfg, s) && Claimable(s, pool, t).Some?
    ensures var id := Claimable(s, pool, t).value;
            var after := PopToProcessing(s.lists, Dispatch(pool, t), Processing(w));
            && id in s.jobs && Held(s, id)
            && Home(s.jobs[id]) == Dispatch(pool, t) && s.jobs[id].worker.None?
            && (forall k :: Occurs(after, k, id) == if k == Processing(w) then 1 else 0)
            && (forall k, x | x != id :: Occurs(after, k, x) == Occurs(s.lists, k, x))
            && PendingTotal(after) == PendingTotal(s.lists)
            && ListAt(RemoveOne(after, Processing(w), id), Processing(w)) == ListAt(s.lists, Processing(w))
  {
    var id := Claimable(s, pool, t).value;
    PopOccurs(s.lists, Dispatch(pool, t), Processing(w));
    assert id in s.jobs;
    assert JobOk(cfg, s, id);
  }

  /** The branch of a claim in which the worker starts the job. */
  lemma StartOk(cfg: Config, s: State, s1: State, id: JobId, w: WorkerId, now: int)
    requires Inv(cfg, s) && id in s.jobs && Held(s, id) && s.jobs[id].worker.None?
    requires s1 == s.(lists := s1.lists)
    requires forall k :: Occurs(s1.lists, k, id) == if k == Processing(w) then 1 else 0
    requires forall k, x | x != id :: Occurs(s1.lists, k, x) == Occurs(s.lists, k, x)
    requires PendingTotal(s1.lists) == PendingTotal(s.lists)
    ensures var r := s.jobs[id].(status := Running, worker := Some(w), lease := now + cfg.leaseSeconds);
            var s' := s1.(jobs := s1.jobs[id := r], active := s1.active[id := r.lease]);
            Inv(cfg, s') && Frame(s, s', id)
  {
    hide Balanced, WithinCapacity, Total, PendingIn, BaseSum, Holders, HeldSet;
    var r := s.jobs[id].(status := Running, worker := Some(w), lease := now + cfg.leaseSeconds);
    var s' := s1.(jobs := s1.jobs[id := r], active := s1.active[id := r.lease]);
    assert JobOk(cfg, s, id);
    assert Frame(s, s', id);
    StayOk(cfg, s, s', id);
  }

  lemma ClaimOk(cfg: Config, s: State, w: WorkerId, pool: Pool, t: TargetId, kind: Option<TargetKind>,
                gpuWorkers: bool, now: int)
    requires Inv(cfg, s)
    ensures Inv(cfg, Claim(cfg, s, w, pool, t, kind, gpuWorkers, now))
    ensures Claimable(s, pool, t).Some? ==>
              Frame(s, Claim(cfg, s, w, pool, t, kind, gpuWorkers, now), Claimable(s, pool, t).value)
  {
    hide Balanced, WithinCapacity, Total, PendingIn, BaseSum, Holders, HeldSet, Release, Finish, Requeue,
        PopToProcessing, RemoveOne, Frame;
    if Claimable(s, pool, t).Some? {
      Popped(cfg, s, w, pool, t);
      var id := Claimable(s, pool, t).value;
      var s1 := s.(lists := PopToProcessing(s.lists, Dispatch(pool, t), Processing(w)));
      var j := s.jobs[id];
      var dropped := RemoveOne(s1.lists, Processing(w), id);
      RemoveOneOccurs(s1.lists, Processing(w), id);
      RemoveUnloads(s1.lists, Processing(w), id);
      if kind.Some? && j.targetKind != kind.value {
        var s2 := State(s1.jobs, dropped, Release(s1.counters, j), s1.active - {id});
        RequeueOk(cfg, s, s2, id, Downgrade(j, gpuWorkers));
      } else if Expired(j, now) {
        FinishOk(cfg, s, s1, id, j.(status := Failed, error := Some(DEADLINE_EXCEEDED_ERROR)), Some(w));
      } else {
        StartOk(cfg, s, s1, id, w, now);
      }
    }
  }

  lemma RenewOk(cfg: Config, s: State, id: JobId, now: int)
    requires Inv(cfg, s)
    requires id in s.jobs && Held(s, id)
    ensures Frame(s, Renew(cfg, s, id, now), id)
    ensures Inv(cfg, Renew(cfg, s, id, now))
  {
    hide Balanced, WithinCapacity, Total, PendingIn, BaseSum, Holders, HeldSet;
    var s' := Renew(cfg, s, id, now);
    assert Frame(s, s', id);
    if s' != s {
      assert JobOk(cfg, s, id);
      StayOk(cfg, s, s', id);
    }
  }

  // ---------------------------------------------------------------- the reaper

  /** Taking an ended id out of the index. */
  lemma ForgetOk(cfg: Config, s: State, id: JobId)
    requires Inv(cfg, s) && (id in s.jobs ==> s.jobs[id].status.Terminal())
    ensures Inv(cfg, s.(active := s.active - {id}))
  {
    hide Balanced, WithinCapacity, Total, PendingIn, BaseSum, Holders, HeldSet;
    var s' := s.(active := s.active - {id});
    if id in s.jobs {
      assert JobOk(cfg, s, id);
      assert Frame(s, s', id);
      StayOk(cfg, s, s', id);
    } else {
      assert s' == s;
    }
  }

  /** The branches in which the reaper fails or re-queues a job. */
  predicate Acts(b: ReapKind) { b == FailDeadline || b == FailRetries || b == Retry }

  /** An id taken from the reaper's index that the reaper does not fail or re-queue while it is still admitted. */
  ghost predicate Reapable(cfg: Config, s: State, id: JobId, now: int) {
    id in s.active && !(id in s.jobs && s.jobs[id].status == Admitted && Acts(ReapBranch(cfg, s, id, now)))
  }

  lemma ReapOk(cfg: Config, s: State, id: JobId, gpuWorkers: bool, now: int)
    requires Inv(cfg, s) && Reapable(cfg, s, id, now)
    ensures Inv(cfg, Reap(cfg, s, id, gpuWorkers, now))
    ensures ReapBranch(cfg, s, id, now) !in {Forget, Keep} ==> Frame(s, Reap(cfg, s, id, gpuWorkers, now), id)
    ensures ReapBranch(cfg, s, id, now) in {DropCancelled, FailDeadline, FailRetries} ==>
              Ended(Reap(cfg, s, id, gpuWorkers, now), id)
  {
    hide Balanced, WithinCapacity, Total, PendingIn, BaseSum, Holders, HeldSet, Release, Finish, Requeue, Frame, Ended;
    var branch := ReapBranch(cfg, s, id, now);
    if branch == Forget {
      ForgetOk(cfg, s, id);
    } else if branch != Keep && s.jobs[id].status == Admitted {
      assert JobOk(cfg, s, id);
      EndListedOk(cfg, s, id);
    } else if branch != Keep {
      var j := s.jobs[id];
      assert JobOk(cfg, s, id);
      var w := j.worker.value;
      assert id in ListAt(s.lists, Processing(w));
      Unlisted(s, id, RemoveOne(s.lists, Processing(w), id), Processing(w));
      match branch
      case DropCancelled => WorkerEndsOk(cfg, s, id, j.(status := Cancelled), w);
      case FailDeadline =>
        WorkerEndsOk(cfg, s, id, j.(status := Failed, error := Some(DEADLINE_EXCEEDED_ERROR)), w);
      case FailRetries =>
        WorkerEndsOk(cfg, s, id,
                     j.(retryCount := j.retryCount + 1).(status := Failed, error := Some(GENERIC_CHAT_ERROR)), w);
      case Retry =>
        var s1 := State(s.jobs, DropProcessing(s.lists, j.worker, id), Release(s.counters, j), s.active - {id});
        RequeueOk(cfg, s, s1, id, Downgrade(j.(retryCount := j.retryCount + 1), gpuWorkers));
    }
  }
}
