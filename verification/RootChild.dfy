/** Parser roots and their children over whole runs. */
module RootChild {
  import opened Common
  import opened RedisLists
  import opened Jobs
  import opened Admission
  import opened Lifecycle
  import opened Ledger
  import opened Invariant
  import opened Steps
  import opened Runs

  /** An ended job is in no pending or dispatch list. */
  ghost predicate OffTheQueues(s: State, id: JobId)
    requires id in s.jobs
  {
    s.jobs[id].status.Terminal() && !Home(s.jobs[id]).Processing? ==> Occurs(s.lists, Home(s.jobs[id]), id) == 0
  }

  /** A root that has a child is past the queues. */
  ghost predicate PastQueues(s: State, id: JobId)
    requires id in s.jobs
  {
    ChildOf(id) in s.jobs ==> s.jobs[id].status !in {Queued, Admitted}
  }

  /** An ended child has an ended root. */
  ghost predicate RootFollows(s: State, id: JobId)
    requires id in s.jobs
  {
    id.ChildOf? && id.parent in s.jobs && s.jobs[id].status.Terminal() ==> s.jobs[id.parent].status.Terminal()
  }

  ghost predicate Orderly(s: State, id: JobId)
    requires id in s.jobs
  {
    OffTheQueues(s, id) && PastQueues(s, id) && RootFollows(s, id)
  }

  ghost predicate AllOrderly(s: State) {
    forall id {:trigger Orderly(s, id)} | id in s.jobs :: Orderly(s, id)
  }

  /** On top of the run discipline: the reaper does not re-queue a root whose child exists. */
  ghost predicate Strict(cfg: Config, s: State, e: Event) {
    e.ReapJob? && ReapBranch(cfg, s, e.id, e.now) == Retry ==> ChildOf(e.id) !in s.jobs
  }

  lemma OtherOrderly(cfg: Config, s: State, s': State, id: JobId, x: JobId)
    requires Inv(cfg, s) && AllOrderly(s) && Frame(s, s', id)
    requires id in s.jobs && s.jobs[id].status.Terminal() ==> s'.jobs[id].status.Terminal()
    requires id !in s.jobs ==>
               && !s'.jobs[id].status.Terminal()
               && (id.ChildOf? && id.parent in s.jobs ==> s.jobs[id.parent].status !in {Queued, Admitted})
    requires x in s.jobs && x != id
    ensures Orderly(s', x)
  {
    hide Balanced, WithinCapacity, Bounded, Occurs;
    assert JobOk(cfg, s, x) && Orderly(s, x);
    assert SameSeat(s.jobs[x], s'.jobs[x]) && Spared(s.jobs[x], s'.jobs[x], x, id, s'.jobs[id]);
    if x.ChildOf? && x.parent in s.jobs && x.parent != id {
      assert Spared(s.jobs[x.parent], s'.jobs[x.parent], x.parent, id, s'.jobs[id]);
    }
  }

  lemma OrderlyAdvance(cfg: Config, s: State, s': State, id: JobId)
    requires Inv(cfg, s) && AllOrderly(s) && Frame(s, s', id)
    requires id in s.jobs && s.jobs[id].status.Terminal() ==> s'.jobs[id].status.Terminal()
    requires id !in s.jobs ==>
               && !s'.jobs[id].status.Terminal()
               && (id.ChildOf? && id.parent in s.jobs ==> s.jobs[id.parent].status !in {Queued, Admitted})
    requires OffTheQueues(s', id) && PastQueues(s', id)
    ensures AllOrderly(s')
  {
    hide Balanced, WithinCapacity, Bounded, Occurs;
    forall x | x in s'.jobs
      ensures Orderly(s', x)
    {
      if x != id {
        OtherOrderly(cfg, s, s', id, x);
      } else if id.ChildOf? && id in s.jobs {
        assert JobOk(cfg, s, id) && Orderly(s, id);
        assert Spared(s.jobs[id.parent], s'.jobs[id.parent], id.parent, id, s'.jobs[id]);
      }
    }
  }

  lemma EndedOrderly(cfg: Config, s: State, s': State, id: JobId)
    requires Inv(cfg, s) && AllOrderly(s) && Frame(s, s', id) && id in s.jobs && Ended(s', id)
    ensures AllOrderly(s')
  {
    OrderlyAdvance(cfg, s, s', id);
  }

  /** A queued or admitted job that stays live. */
  lemma LiveOrderly(cfg: Config, s: State, s': State, id: JobId)
    requires Inv(cfg, s) && AllOrderly(s) && Frame(s, s', id) && id in s.jobs
    requires !s'.jobs[id].status.Terminal() && !s.jobs[id].status.Terminal()
    requires s'.jobs[id].status in {Queued, Admitted} ==> ChildOf(id) !in s.jobs
    ensures AllOrderly(s')
  {
    OrderlyAdvance(cfg, s, s', id);
  }

  /** A change to a record alone. */
  lemma RecordOrderly(cfg: Config, s: State, s': State, id: JobId)
    requires Inv(cfg, s) && AllOrderly(s) && Frame(s, s', id) && id in s.jobs
    requires s'.jobs[id].status == s.jobs[id].status && Home(s'.jobs[id]) == Home(s.jobs[id])
    requires s'.lists == s.lists
    ensures AllOrderly(s')
  {
    assert Orderly(s, id);
    OrderlyAdvance(cfg, s, s', id);
  }

  lemma CancelOrderly(cfg: Config, s: State, id: JobId, user: string)
    requires Inv(cfg, s) && AllOrderly(s)
    ensures AllOrderly(Cancel(s, id, user))
  {
    hide Inv, AllOrderly, Frame, Ended, MarkCancelled;
    if Cancel(s, id, user) != s {
      var j := s.jobs[id];
      var c := if j.status !in {Queued, Admitted} && Propagates(s, j) then j.child.value else id;
      SeatOf(cfg, s, id);
      SeatOf(cfg, s, c);
      if s.jobs[c].status in {Queued, Admitted} {
        EndListedOk(cfg, s, c);
        EndedOrderly(cfg, s, Cancel(s, id, user), c);
      } else {
        FlagOrderly(cfg, s, c);
      }
    }
  }

  /** Home, spelled out for the two listed statuses. */
  lemma SeatOf(cfg: Config, s: State, id: JobId)
    requires Inv(cfg, s) && id in s.jobs
    ensures s.jobs[id].status == Queued ==> Home(s.jobs[id]) == Pending(s.jobs[id].cls, s.jobs[id].priority)
    ensures s.jobs[id].status == Admitted ==>
              s.jobs[id].target.Some? && Home(s.jobs[id]) == Dispatch(PoolFor(s.jobs[id].cls), s.jobs[id].target.value)
    ensures s.jobs[id].child.Some? ==> s.jobs[id].child.value in s.jobs
    ensures s.jobs[id].root != Some(id)
  {
    assert JobOk(cfg, s, id);
  }

  lemma FlagOrderly(cfg: Config, s: State, id: JobId)
    requires Inv(cfg, s) && AllOrderly(s) && id in s.jobs
    ensures AllOrderly(RequestCancel(s, id))
  {
    assert JobOk(cfg, s, id);
    RecordOnlyOk(cfg, s, RequestCancel(s, id), id);
    RecordOrderly(cfg, s, RequestCancel(s, id), id);
  }

  lemma ClaimOrderly(cfg: Config, s: State, w: WorkerId, pool: Pool, t: TargetId, kind: Option<TargetKind>,
                     gpuWorkers: bool, now: int)
    requires Inv(cfg, s) && AllOrderly(s)
    ensures AllOrderly(Claim(cfg, s, w, pool, t, kind, gpuWorkers, now))
  {
    hide Balanced, WithinCapacity, Bounded, Release, RemoveOne, PopToProcessing, Frame;
    if Claimable(s, pool, t).Some? {
      var s' := Claim(cfg, s, w, pool, t, kind, gpuWorkers, now);
      Popped(cfg, s, w, pool, t);
      ClaimOk(cfg, s, w, pool, t, kind, gpuWorkers, now);
      var id := Claimable(s, pool, t).value;
      assert JobOk(cfg, s, id) && Orderly(s, id);
      if !s'.jobs[id].status.Terminal() {
        LiveOrderly(cfg, s, s', id);
      } else {
        var s1 := s.(lists := PopToProcessing(s.lists, Dispatch(pool, t), Processing(w)));
        RemoveOneOccurs(s1.lists, Processing(w), id);
        EndedOrderly(cfg, s, s', id);
      }
    }
  }

  lemma EnqueueOrderly(cfg: Config, s: State, id: JobId, req: Request, root: Option<JobId>)
    requires Inv(cfg, s) && AllOrderly(s) && GoodRequest(req) && Enqueues(cfg, s, id, req)
    requires id.Fresh? ==> root.None?
    requires id.ChildOf? ==> root == Some(id.parent) && id.parent in s.jobs && s.jobs[id.parent].status == Running
                             && s.jobs[id.parent].kind == ParseJob && req.kind == FileChatJob
    ensures AllOrderly(Enqueue(cfg, s, id, req, root))
  {
    hide Balanced, WithinCapacity, Bounded;
    EnqueueOk(cfg, s, id, req, root);
    assert ChildOf(id) in s.jobs ==> JobOk(cfg, s, ChildOf(id));
    OrderlyAdvance(cfg, s, Enqueue(cfg, s, id, req, root), id);
  }

  lemma LinkOrderly(cfg: Config, s: State, id: JobId)
    requires Inv(cfg, s) && AllOrderly(s) && id in s.jobs && ChildOf(id) in s.jobs
    ensures AllOrderly(LinkTo(s, id))
  {
    LinkOk(cfg, s, id);
    RecordOrderly(cfg, s, LinkTo(s, id), id);
  }

  lemma CreateChildOrderly(cfg: Config, s: State, id: JobId, req: Request, saved: bool, w: WorkerId)
    requires Inv(cfg, s) && AllOrderly(s) && Working(s, id, w) && s.jobs[id].kind == ParseJob && GoodRequest(req)
    ensures AllOrderly(CreateChild(cfg, s, id, req, saved))
  {
    hide Balanced, WithinCapacity, Bounded, Enqueues, AllOrderly;
    var s' := CreateChild(cfg, s, id, req, saved);
    if s' != s {
      WorkingIsHeld(cfg, s, id, w);
      assert JobOk(cfg, s, id);
      var mid := if ChildOf(id) in s.jobs then s else Enqueue(cfg, s, ChildOf(id), ChildRequest(s, id, req), Some(id));
      if ChildOf(id) !in s.jobs {
        EnqueueOk(cfg, s, ChildOf(id), ChildRequest(s, id, req), Some(id));
        EnqueueOrderly(cfg, s, ChildOf(id), ChildRequest(s, id, req), Some(id));
        assert mid.jobs.Keys == s.jobs.Keys + {ChildOf(id)};
      }
      if saved {
        LinkOrderly(cfg, mid, id);
      }
    }
  }

  lemma WaitOrderly(cfg: Config, s: State, id: JobId, w: WorkerId)
    requires Inv(cfg, s) && AllOrderly(s) && Working(s, id, w) && ChildOf(id) in s.jobs
    ensures AllOrderly(WaitOnChild(s, id, ChildOf(id), Some(w)))
  {
    hide Balanced, WithinCapacity, Bounded, Release, Frame;
    var s' := WaitOnChild(s, id, ChildOf(id), Some(w));
    WorkingIsHeld(cfg, s, id, w);
    WaitOk(cfg, s, id, w);
    assert JobOk(cfg, s, id) && Orderly(s, id) && JobOk(cfg, s', id);
    RemoveOneOccurs(s.lists, Processing(w), id);
    OrderlyAdvance(cfg, s, s', id);
  }

  lemma WorkerEndOrderly(cfg: Config, s: State, id: JobId, j: Job, w: WorkerId)
    requires Inv(cfg, s) && AllOrderly(s) && Working(s, id, w)
    requires SameSeat(j, s.jobs[id]) && j.child == s.jobs[id].child && j.status.Terminal()
    ensures AllOrderly(Finish(s, id, j, Some(w)))
  {
    hide Inv, AllOrderly, Frame, Ended, Finish;
    WorkerEndsOk(cfg, s, id, j, w);
    EndedOrderly(cfg, s, Finish(s, id, j, Some(w)), id);
  }

  lemma ReapOrderly(cfg: Config, s: State, id: JobId, gpuWorkers: bool, now: int)
    requires Inv(cfg, s) && AllOrderly(s) && Reapable(cfg, s, id, now)
    requires ReapBranch(cfg, s, id, now) == Retry ==> ChildOf(id) !in s.jobs
    ensures AllOrderly(Reap(cfg, s, id, gpuWorkers, now))
  {
    hide Inv, Frame, Ended, Finish, Release, AllOrderly, MarkCancelled;
    var s' := Reap(cfg, s, id, gpuWorkers, now);
    ReapOk(cfg, s, id, gpuWorkers, now);
    match ReapBranch(cfg, s, id, now)
    case Keep =>
    case Forget => IndexOnlyOrderly(s, s');
    case Retry => LiveOrderly(cfg, s, s', id);
    case _ => EndedOrderly(cfg, s, s', id);
  }

  lemma IndexOnlyOrderly(s: State, s': State)
    requires AllOrderly(s) && s'.jobs == s.jobs && s'.lists == s.lists
    ensures AllOrderly(s')
  {
    forall x | x in s'.jobs
      ensures Orderly(s', x)
    {
      assert Orderly(s, x);
    }
  }

  lemma StepOrderly(cfg: Config, s: State, e: Event)
    requires Inv(cfg, s) && AllOrderly(s) && cfg.Valid() && Allowed(cfg, s, e) && Strict(cfg, s, e)
    ensures AllOrderly(Next(cfg, s, e))
  {
    hide Inv, AllOrderly, Finish, WaitOnChild, Frame, Claim, Cancel, Reap, Held;
    match e
    case EnqueueJob(id, req) =>
      if Enqueues(cfg, s, id, req) {
        EnqueueOrderly(cfg, s, id, req, None);
      } else {
        EnqueueRefused(cfg, s, id, req, None);
      }
    case TryAdmitJob(id, queue, t, r, gpu, now) => AdmitOrderly(cfg, s, id, queue, t, r, gpu, now);
    case ClaimJob(w, pool, t, kind, gpu, now) => ClaimOrderly(cfg, s, w, pool, t, kind, gpu, now);
    case RenewLease(id, w, now) => RenewOrderly(cfg, s, id, w, now);
    case CancelJob(id, user) => CancelOrderly(cfg, s, id, user);
    case CompleteJob(id, text, w) =>
      WorkerEndOrderly(cfg, s, id, s.jobs[id].(status := Completed, result := Some(text)), w);
    case FailJob(id, error, w) =>
      WorkerEndOrderly(cfg, s, id, s.jobs[id].(status := Failed, error := Some(error)), w);
    case DropJob(id, w) =>
      if !s.jobs[id].status.Terminal() {
        WorkerEndOrderly(cfg, s, id, s.jobs[id].(status := Cancelled), w);
      }
    case ReapJob(id, gpu, now) => ReapOrderly(cfg, s, id, gpu, now);
    case LinkChildJob(id) =>
      if id in s.jobs && s.jobs[id].child.None? && ChildOf(id) in s.jobs {
        LinkOrderly(cfg, s, id);
      }
    case CreateChildJob(id, req, saved, w) => CreateChildOrderly(cfg, s, id, req, saved, w);
    case WaitOnChildJob(id, child, w) => WaitOrderly(cfg, s, id, w);
  }

  lemma RenewOrderly(cfg: Config, s: State, id: JobId, w: WorkerId, now: int)
    requires Inv(cfg, s) && AllOrderly(s) && Working(s, id, w)
    ensures AllOrderly(Renew(cfg, s, id, now))
  {
    hide Balanced, WithinCapacity, Bounded;
    WorkingIsHeld(cfg, s, id, w);
    RenewOk(cfg, s, id, now);
    RecordOrderly(cfg, s, Renew(cfg, s, id, now), id);
  }

  lemma AdmitOrderly(cfg: Config, s: State, id: JobId, queue: Key, t: TargetId, r: Report, gpuWorkers: bool, now: int)
    requires Inv(cfg, s) && AllOrderly(s) && t in cfg.targets
    ensures AllOrderly(TryAdmit(cfg, s, id, queue, t, r, gpuWorkers, now))
  {
    hide Balanced, WithinCapacity, Bounded, Evaluate, Reserve, RPush, RemoveOne, Frame;
    if id in s.jobs && s.jobs[id].status == Queued {
      var s' := TryAdmit(cfg, s, id, queue, t, r, gpuWorkers, now);
      assert JobOk(cfg, s, id) && Orderly(s, id);
      if Admits(cfg, s, id, queue, t, r, gpuWorkers) {
        AdmittedOk(cfg, s, id, queue, t, r, gpuWorkers, now);
        LiveOrderly(cfg, s, s', id);
      } else {
        RecordOnlyOk(cfg, s, s', id);
        RecordOrderly(cfg, s, s', id);
      }
    }
  }

  // ---------------------------------------------------------------- runs

  ghost predicate StrictRun(cfg: Config, s: State, es: seq<Event>)
    requires cfg.Valid()
    decreases |es|
  {
    es == [] || (Allowed(cfg, s, es[0]) && Strict(cfg, s, es[0]) && StrictRun(cfg, Next(cfg, s, es[0]), es[1..]))
  }

  lemma {:induction false} StrictRunKeeps(cfg: Config, s: State, es: seq<Event>)
    requires cfg.Valid() && Inv(cfg, s) && AllOrderly(s) && StrictRun(cfg, s, es)
    ensures Inv(cfg, After(cfg, s, es)) && AllOrderly(After(cfg, s, es))
    decreases |es|
  {
    hide Inv, AllOrderly, Allowed, Next, Strict;
    if es != [] {
      StepKeeps(cfg, s, es[0]);
      StepOrderly(cfg, s, es[0]);
      StrictRunKeeps(cfg, Next(cfg, s, es[0]), es[1..]);
    }
  }

  /**
    Root follows child, and no ended job is left in a pending or dispatch list, after every run
    in which the reaper never re-queues a root whose child exists.
  */
  lemma RootFollowsChild(cfg: Config, es: seq<Event>, id: JobId)
    requires cfg.Valid() && StrictRun(cfg, EMPTY, es)
    requires id in After(cfg, EMPTY, es).jobs && After(cfg, EMPTY, es).jobs[id].status.Terminal()
    ensures var s := After(cfg, EMPTY, es);
            && (forall k: Key :: !k.Processing? ==> Occurs(s.lists, k, id) == 0)
            && (id.ChildOf? ==> id.parent in s.jobs && s.jobs[id.parent].status.Terminal())
  {
    InitialInv(cfg);
    StrictRunKeeps(cfg, EMPTY, es);
    var s := After(cfg, EMPTY, es);
    assert JobOk(cfg, s, id) && Orderly(s, id);
  }

  // ---------------------------------------------------------------- outcomes

  /**
    A child that ends hands its outcome to a live root, field by field, and leaves an ended root
    alone, whichever call of a disciplined run ends it.
  */
  lemma RootCarriesOutcome(cfg: Config, s: State, e: Event, root: JobId)
    requires Inv(cfg, s) && cfg.Valid() && Allowed(cfg, s, e) && root in s.jobs && ChildOf(root) in s.jobs
    requires !s.jobs[ChildOf(root)].status.Terminal()
    requires ChildOf(root) in Next(cfg, s, e).jobs && Next(cfg, s, e).jobs[ChildOf(root)].status.Terminal()
    ensures var s' := Next(cfg, s, e);
            var c := s'.jobs[ChildOf(root)];
            && root in s'.jobs
            && (if s.jobs[root].status.Terminal() then s'.jobs[root] == s.jobs[root]
                else
                  && s'.jobs[root].status == c.status
                  && s'.jobs[root].child == Some(ChildOf(root))
                  && (c.status == Completed ==> s'.jobs[root].result == c.result && s'.jobs[root].error.None?)
                  && (c.status == Failed ==> s'.jobs[root].result.None? && s'.jobs[root].error.Some?
                                             && (c.error.Some? && c.error.value != ""
                                                 ==> s'.jobs[root].error == c.error))
                  && (c.status == Cancelled ==> s'.jobs[root].result.None? && s'.jobs[root].error.None?))
  {
    hide Inv, Frame, Finish, Claim, Reap, Cancel, Enqueue, CreateChild;
    var s' := Next(cfg, s, e);
    var c := ChildOf(root);
    FocusOf(cfg, s, e, c);
    OutcomeFromFrame(s, s', root);
  }

  lemma OutcomeFromFrame(s: State, s': State, root: JobId)
    requires Frame(s, s', ChildOf(root)) && root in s.jobs && ChildOf(root) in s.jobs
    requires !s.jobs[ChildOf(root)].status.Terminal() && s'.jobs[ChildOf(root)].status.Terminal()
    ensures root in s'.jobs
    ensures s.jobs[root].status.Terminal() ==> s'.jobs[root] == s.jobs[root]
    ensures !s.jobs[root].status.Terminal() ==>
              s'.jobs[root] == RootAfter(s.jobs[root], ChildOf(root), s'.jobs[ChildOf(root)])
  {
    assert Spared(s.jobs[root], s'.jobs[root], root, ChildOf(root), s'.jobs[ChildOf(root)]);
  }

  /**
    A job whose status a disciplined step changes from live to ended, and that is a child, is the job
    the step moves.
  */
  lemma FocusOf(cfg: Config, s: State, e: Event, c: JobId)
    requires Inv(cfg, s) && cfg.Valid() && Allowed(cfg, s, e) && c.ChildOf? && c in s.jobs
    requires !s.jobs[c].status.Terminal()
    requires c in Next(cfg, s, e).jobs && Next(cfg, s, e).jobs[c].status.Terminal()
    ensures Frame(s, Next(cfg, s, e), c)
  {
    hide Inv, Frame, Finish, Claim, Reap, Cancel, Enqueue, CreateChild, Renew, WaitOnChild, MarkCancelled, LinkChild;
    var s' := Next(cfg, s, e);
    match e
    case EnqueueJob(id, req) => EnqueueLeaves(cfg, s, id, req, None, c);
    case TryAdmitJob(id, queue, t, r, gpu, now) => AdmitLeaves(cfg, s, id, queue, t, r, gpu, now, c);
    case ClaimJob(w, pool, t, kind, gpu, now) =>
      ClaimOk(cfg, s, w, pool, t, kind, gpu, now);
      ClaimLeaves(cfg, s, w, pool, t, kind, gpu, now);
      if Claimable(s, pool, t).Some? {
        OnlyFocusEnds(s, s', Claimable(s, pool, t).value, c);
      }
    case RenewLease(id, w, now) => RenewLeaves(cfg, s, id, now, c);
    case CancelJob(id, user) => CancelFocus(cfg, s, id, user, c);
    case CompleteJob(id, text, w) =>
      WorkerEndsOk(cfg, s, id, s.jobs[id].(status := Completed, result := Some(text)), w);
      OnlyFocusEnds(s, s', id, c);
    case FailJob(id, error, w) =>
      WorkerEndsOk(cfg, s, id, s.jobs[id].(status := Failed, error := Some(error)), w);
      OnlyFocusEnds(s, s', id, c);
    case DropJob(id, w) =>
      DropFocus(cfg, s, id, w);
      if s' != s {
        OnlyFocusEnds(s, s', id, c);
      }
    case ReapJob(id, gpu, now) =>
      ReapOk(cfg, s, id, gpu, now);
      ReapLeaves(cfg, s, id, gpu, now);
      if ReapBranch(cfg, s, id, now) !in {Forget, Keep} {
        OnlyFocusEnds(s, s', id, c);
      }
    case LinkChildJob(id) => LinkLeaves(s, id, c);
    case CreateChildJob(id, req, saved, w) => CreateLeaves(cfg, s, id, req, saved, c);
    case WaitOnChildJob(id, child, w) => WaitLeaves(s, id, child, w, c);
  }

  lemma OnlyFocusEnds(s: State, s': State, id: JobId, c: JobId)
    requires Frame(s, s', id) && c.ChildOf? && c in s.jobs && s'.jobs[c].status != s.jobs[c].status
    ensures c == id
  {
    assert c == id || Spared(s.jobs[c], s'.jobs[c], c, id, s'.jobs[id]);
  }

  lemma EnqueueLeaves(cfg: Config, s: State, id: JobId, req: Request, root: Option<JobId>, c: JobId)
    requires c in s.jobs
    ensures Enqueue(cfg, s, id, req, root).jobs[c] == s.jobs[c]
  {
  }

  lemma AdmitLeaves(cfg: Config, s: State, id: JobId, queue: Key, t: TargetId, r: Report, gpuWorkers: bool, now: int,
      c: JobId)
    requires cfg.Valid() && t in cfg.targets && c in s.jobs
    ensures TryAdmit(cfg, s, id, queue, t, r, gpuWorkers, now).jobs[c].status.Terminal() ==> s.jobs[c].status.Terminal()
  {
    hide Evaluate, Reserve, RPush, RemoveOne;
  }

  lemma ClaimLeaves(cfg: Config, s: State, w: WorkerId, pool: Pool, t: TargetId, kind: Option<TargetKind>,
      gpuWorkers: bool, now: int)
    ensures Claimable(s, pool, t).None? ==> Claim(cfg, s, w, pool, t, kind, gpuWorkers, now) == s
  {
  }

  lemma RenewLeaves(cfg: Config, s: State, id: JobId, now: int, c: JobId)
    requires c in s.jobs
    ensures Renew(cfg, s, id, now).jobs[c].status == s.jobs[c].status
  {
  }

  lemma ReapLeaves(cfg: Config, s: State, id: JobId, gpuWorkers: bool, now: int)
    ensures ReapBranch(cfg, s, id, now) in {Forget, Keep} ==> Reap(cfg, s, id, gpuWorkers, now).jobs == s.jobs
  {
  }

  lemma LinkLeaves(s: State, id: JobId, c: JobId)
    requires c in s.jobs
    ensures LinkChild(s, id).jobs[c].status == s.jobs[c].status
  {
  }

  lemma CreateLeaves(cfg: Config, s: State, id: JobId, req: Request, saved: bool, c: JobId)
    requires c in s.jobs
    ensures CreateChild(cfg, s, id, req, saved).jobs[c].status == s.jobs[c].status
  {
  }

  lemma WaitLeaves(s: State, id: JobId, child: JobId, w: WorkerId, c: JobId)
    requires c in s.jobs
    ensures WaitOnChild(s, id, child, Some(w)).jobs[c].status == s.jobs[c].status
  {
  }

  lemma DropFocus(cfg: Config, s: State, id: JobId, w: WorkerId)
    requires Inv(cfg, s) && Working(s, id, w)
    ensures MarkCancelled(s, id, Some(w)) == s || Frame(s, MarkCancelled(s, id, Some(w)), id)
  {
    hide Inv, Frame, Finish;
    if !s.jobs[id].status.Terminal() {
      WorkerEndsOk(cfg, s, id, s.jobs[id].(status := Cancelled), w);
    }
  }

  lemma CancelFocus(cfg: Config, s: State, id: JobId, user: string, c: JobId)
    requires Inv(cfg, s) && c.ChildOf? && c in s.jobs && !s.jobs[c].status.Terminal()
    requires c in Cancel(s, id, user).jobs && Cancel(s, id, user).jobs[c].status.Terminal()
    ensures Frame(s, Cancel(s, id, user), c)
  {
    hide Inv, Frame, Ended, MarkCancelled;
    var j := s.jobs[id];
    var x := if j.status !in {Queued, Admitted} && Propagates(s, j) then j.child.value else id;
    SeatOf(cfg, s, id);
    SeatOf(cfg, s, x);
    if s.jobs[x].status in {Queued, Admitted} {
      EndListedOk(cfg, s, x);
      OnlyFocusEnds(s, Cancel(s, id, user), x, c);
    }
  }

  /**
    Cancelling a root whose child is still queued or admitted ends both at once, takes the child
    out of every list and gives its reservation back.
  */
  lemma CancelReachesChild(cfg: Config, s: State, root: JobId, user: string)
    requires Inv(cfg, s) && root in s.jobs && s.jobs[root].child.Some?
    requires s.jobs[root].status == Running && !s.jobs[root].cancelRequested
    requires user == "" || s.jobs[root].user == user
    requires ChildOf(root) in s.jobs && s.jobs[ChildOf(root)].status in {Queued, Admitted}
    ensures var s' := Cancel(s, root, user);
            && Inv(cfg, s')
            && root in s'.jobs && s'.jobs[root].status == Cancelled
            && Ended(s', ChildOf(root)) && s'.jobs[ChildOf(root)].status == Cancelled
            && CountersFollow(s, s', ChildOf(root))
  {
    hide Inv, Frame, MarkCancelled, Balanced;
    var c := ChildOf(root);
    var s' := Cancel(s, root, user);
    CancelOk(cfg, s, root, user);
    SeatOf(cfg, s, root);
    SeatOf(cfg, s, c);
    LinkedTo(cfg, s, root);
    EndListedOk(cfg, s, c);
    MarkedCancelled(s.(lists := RemoveOne(s.lists, Home(s.jobs[c]), c)), c);
    OutcomeFromFrame(s, s', root);
    EndedReleases(cfg, s, s', c);
  }

  lemma LinkedTo(cfg: Config, s: State, root: JobId)
    requires Inv(cfg, s) && root in s.jobs && s.jobs[root].child.Some?
    ensures s.jobs[root].child.value == ChildOf(root)
  {
    assert JobOk(cfg, s, root);
  }

  lemma MarkedCancelled(s: State, id: JobId)
    requires id in s.jobs && !s.jobs[id].status.Terminal()
    ensures id in MarkCancelled(s, id, None).jobs
    ensures s.jobs[id].root != Some(id) ==> MarkCancelled(s, id, None).jobs[id].status == Cancelled
  {
  }

  /** Two invariant states around a step that ends a listed job differ by that job's share. */
  lemma EndedReleases(cfg: Config, s: State, s': State, id: JobId)
    requires Inv(cfg, s) && Inv(cfg, s') && Frame(s, s', id)
    ensures CountersFollow(s, s', id)
  {
    hide WithinCapacity, Bounded, Total, Held;
    forall t, f
      ensures CounterAt(s'.counters, t, f) == CounterAt(s.counters, t, f) - Share(s, id, t, f) + Share(s', id, t, f)
    {
      TotalMoves(s, s', id, t, f);
    }
  }

  // ---------------------------------------------------------------- exactly when order is lost

  ghost predicate QueuesClean(s: State) {
    forall id {:trigger OffTheQueues(s, id)} | id in s.jobs :: OffTheQueues(s, id)
  }

  lemma OthersOffTheQueues(s: State, s': State, id: JobId, x: JobId)
    requires QueuesClean(s) && Frame(s, s', id) && x in s.jobs && x != id && id != ChildOf(x)
    ensures OffTheQueues(s', x)
  {
    assert OffTheQueues(s, x);
    assert Spared(s.jobs[x], s'.jobs[x], x, id, s'.jobs[id]);
    assert Occurs(s'.lists, Home(s.jobs[x]), x) == Occurs(s.lists, Home(s.jobs[x]), x);
  }

  /**
    A claim brings an ended job back to life exactly when it pops one that is not past its
    deadline, or whose target kind does not match: the claim never looks at the status.
  */
  lemma ClaimRevives(cfg: Config, s: State, w: WorkerId, pool: Pool, t: TargetId, kind: Option<TargetKind>,
                     gpuWorkers: bool, now: int, id: JobId)
    requires Inv(cfg, s) && id in s.jobs && s.jobs[id].status.Terminal()
    ensures id in Claim(cfg, s, w, pool, t, kind, gpuWorkers, now).jobs
    ensures !Claim(cfg, s, w, pool, t, kind, gpuWorkers, now).jobs[id].status.Terminal()
            <==> && Claimable(s, pool, t) == Some(id)
                 && ((kind.Some? && s.jobs[id].targetKind != kind.value) || !Expired(s.jobs[id], now))
  {
    hide Balanced, WithinCapacity, Bounded, Release, Seated, RemoveOne, PopToProcessing;
    ClaimOk(cfg, s, w, pool, t, kind, gpuWorkers, now);
    if Claimable(s, pool, t).Some? {
      var x := Claimable(s, pool, t).value;
      Popped(cfg, s, w, pool, t);
      if x != id {
        assert Spared(s.jobs[id], Claim(cfg, s, w, pool, t, kind, gpuWorkers, now).jobs[id], id, x,
                      Claim(cfg, s, w, pool, t, kind, gpuWorkers, now).jobs[x]);
      }
    }
  }

  // ---------------------------------------------------------------- ended stays ended

  predicate SameOutcome(a: Job, b: Job) {
    a.status == b.status && a.result == b.result && a.error == b.error
  }

  /**
    In a disciplined run the outcome of an ended job changes only when its own worker completes or
    fails it again, or when a claim pops it.
  */
  lemma EndedStays(cfg: Config, s: State, e: Event, x: JobId)
    requires Inv(cfg, s) && cfg.Valid() && Allowed(cfg, s, e) && x in s.jobs && s.jobs[x].status.Terminal()
    requires !((e.CompleteJob? || e.FailJob?) && e.id == x)
    requires !(e.ClaimJob? && Claimable(s, e.pool, e.target) == Some(x))
    ensures x in Next(cfg, s, e).jobs && SameOutcome(s.jobs[x], Next(cfg, s, e).jobs[x])
  {
    hide Inv, Frame, Finish, Claim, Reap, Cancel, CreateChild, TryAdmit, MarkCancelled;
    var s' := Next(cfg, s, e);
    match e
    case TryAdmitJob(id, queue, t, r, gpu, now) => AdmitKeepsEnded(cfg, s, id, queue, t, r, gpu, now, x);
    case ClaimJob(w, pool, t, kind, gpu, now) =>
      ClaimOk(cfg, s, w, pool, t, kind, gpu, now);
      ClaimLeaves(cfg, s, w, pool, t, kind, gpu, now);
      if Claimable(s, pool, t).Some? {
        SparedKeeps(s, s', Claimable(s, pool, t).value, x);
      }
    case CancelJob(id, user) => CancelKeepsEnded(cfg, s, id, user, x);
    case CompleteJob(id, text, w) =>
      WorkerEndsOk(cfg, s, id, s.jobs[id].(status := Completed, result := Some(text)), w);
      SparedKeeps(s, s', id, x);
    case FailJob(id, error, w) =>
      WorkerEndsOk(cfg, s, id, s.jobs[id].(status := Failed, error := Some(error)), w);
      SparedKeeps(s, s', id, x);
    case DropJob(id, w) =>
      DropFocus(cfg, s, id, w);
      DropLeaves(s, id, w);
      if s' != s {
        SparedKeeps(s, s', id, x);
      }
    case ReapJob(id, gpu, now) =>
      ReapOk(cfg, s, id, gpu, now);
      ReapLeaves(cfg, s, id, gpu, now);
      if ReapBranch(cfg, s, id, now) !in {Forget, Keep} {
        SparedKeeps(s, s', id, x);
      }
    case CreateChildJob(id, req, saved, w) => CreateKeepsEnded(cfg, s, id, req, saved, x);
    case _ =>
  }

  lemma SparedKeeps(s: State, s': State, id: JobId, x: JobId)
    requires Frame(s, s', id) && x in s.jobs && x != id && s.jobs[x].status.Terminal()
    ensures x in s'.jobs && s'.jobs[x] == s.jobs[x]
  {
    assert Spared(s.jobs[x], s'.jobs[x], x, id, s'.jobs[id]);
  }

  lemma DropLeaves(s: State, id: JobId, w: WorkerId)
    ensures id in s.jobs && s.jobs[id].status.Terminal() ==> MarkCancelled(s, id, Some(w)) == s
  {
  }

  lemma AdmitKeepsEnded(cfg: Config, s: State, id: JobId, queue: Key, t: TargetId, r: Report, gpuWorkers: bool,
      now: int, x: JobId)
    requires cfg.Valid() && t in cfg.targets && x in s.jobs && s.jobs[x].status.Terminal()
    ensures var s' := TryAdmit(cfg, s, id, queue, t, r, gpuWorkers, now); x in s'.jobs && s'.jobs[x] == s.jobs[x]
  {
    hide Evaluate, Reserve, RPush, RemoveOne;
  }

  lemma CreateKeepsEnded(cfg: Config, s: State, id: JobId, req: Request, saved: bool, x: JobId)
    requires x in s.jobs
    ensures x in CreateChild(cfg, s, id, req, saved).jobs
    ensures SameOutcome(s.jobs[x], CreateChild(cfg, s, id, req, saved).jobs[x])
  {
  }

  lemma CancelKeepsEnded(cfg: Config, s: State, id: JobId, user: string, x: JobId)
    requires Inv(cfg, s) && x in s.jobs && s.jobs[x].status.Terminal()
    ensures x in Cancel(s, id, user).jobs && SameOutcome(s.jobs[x], Cancel(s, id, user).jobs[x])
  {
    hide Inv, Frame, Ended, MarkCancelled;
    if Cancel(s, id, user) != s {
      var j := s.jobs[id];
      var c := if j.status !in {Queued, Admitted} && Propagates(s, j) then j.child.value else id;
      SeatOf(cfg, s, id);
      SeatOf(cfg, s, c);
      if s.jobs[c].status in {Queued, Admitted} {
        EndListedOk(cfg, s, c);
        SparedKeeps(s, Cancel(s, id, user), c, x);
      }
    }
  }
}
