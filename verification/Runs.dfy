/** Runs of the control plane: sequences of gateway calls, and what holds after every one of them. */
module Runs {
  import opened Common
  import opened RedisLists
  import opened Jobs
  import opened Admission
  import opened Lifecycle
  import opened Ledger
  import opened Invariant
  import opened Steps

  datatype Event =
    | EnqueueJob(id: JobId, req: Request)
    | TryAdmitJob(id: JobId, queue: Key, target: TargetId, report: Report, gpuWorkers: bool, now: int)
    | ClaimJob(worker: WorkerId, pool: Pool, target: TargetId, kind: Option<TargetKind>, gpuWorkers: bool, now: int)
    | RenewLease(id: JobId, worker: WorkerId, now: int)
    | CancelJob(id: JobId, user: string)
    | CompleteJob(id: JobId, text: string, worker: WorkerId)
    | FailJob(id: JobId, error: string, worker: WorkerId)
    | DropJob(id: JobId, worker: WorkerId)
    | ReapJob(id: JobId, gpuWorkers: bool, now: int)
    | LinkChildJob(id: JobId)
    | CreateChildJob(id: JobId, req: Request, linkSaved: bool, worker: WorkerId)
    | WaitOnChildJob(id: JobId, child: JobId, worker: WorkerId)

  ghost function Next(cfg: Config, s: State, e: Event): State
    requires cfg.Valid()
  {
    match e
    case EnqueueJob(id, req) => Enqueue(cfg, s, id, req, None)
    case TryAdmitJob(id, queue, t, r, gpu, now) =>
      if t in cfg.targets then TryAdmit(cfg, s, id, queue, t, r, gpu, now) else s
    case ClaimJob(w, pool, t, kind, gpu, now) => Claim(cfg, s, w, pool, t, kind, gpu, now)
    case RenewLease(id, w, now) => Renew(cfg, s, id, now)
    case CancelJob(id, user) => Cancel(s, id, user)
    case CompleteJob(id, text, w) => MarkCompleted(s, id, text, Some(w))
    case FailJob(id, error, w) => MarkFailed(s, id, error, Some(w))
    case DropJob(id, w) => MarkCancelled(s, id, Some(w))
    case ReapJob(id, gpu, now) => Reap(cfg, s, id, gpu, now)
    case LinkChildJob(id) => LinkChild(s, id)
    case CreateChildJob(id, req, saved, w) => CreateChild(cfg, s, id, req, saved)
    case WaitOnChildJob(id, child, w) => WaitOnChild(s, id, child, Some(w))
  }

  /** The worker has the job in its processing list. */
  predicate Working(s: State, id: JobId, w: WorkerId) {
    id in s.jobs && id in ListAt(s.lists, Processing(w))
  }

  /**
    The run discipline. New ids are new; a worker ends, renews or parks only jobs in its own
    processing list; the reaper neither fails nor re-queues a job that is still admitted. Cancelling, claiming,
    admitting and linking are free.
  */
  ghost predicate Allowed(cfg: Config, s: State, e: Event) {
    match e
    case EnqueueJob(id, req) => id.Fresh? && id !in s.jobs && GoodRequest(req)
    case TryAdmitJob(_, _, t, _, _, _) => t in cfg.targets
    case RenewLease(id, w, _) => Working(s, id, w)
    case CompleteJob(id, _, w) => Working(s, id, w)
    case FailJob(id, _, w) => Working(s, id, w)
    case DropJob(id, w) => Working(s, id, w)
    case ReapJob(id, _, now) => Reapable(cfg, s, id, now)
    case CreateChildJob(id, req, _, w) => Working(s, id, w) && s.jobs[id].kind == ParseJob && GoodRequest(req)
    case WaitOnChildJob(id, child, w) => Working(s, id, w) && child == ChildOf(id) && child in s.jobs
    case _ => true
  }

  lemma WorkingIsHeld(cfg: Config, s: State, id: JobId, w: WorkerId)
    requires Inv(cfg, s) && Working(s, id, w)
    ensures Held(s, id) && s.jobs[id].worker == Some(w)
  {
    assert JobOk(cfg, s, id);
    assert Occurs(s.lists, Processing(w), id) > 0;
  }

  lemma LinkOk(cfg: Config, s: State, id: JobId)
    requires Inv(cfg, s) && id in s.jobs && ChildOf(id) in s.jobs
    ensures Inv(cfg, LinkTo(s, id)) && Frame(s, LinkTo(s, id), id)
  {
    assert JobOk(cfg, s, id) && JobOk(cfg, s, ChildOf(id));
    RecordOnlyOk(cfg, s, LinkTo(s, id), id);
  }

  lemma CreateChildOk(cfg: Config, s: State, id: JobId, req: Request, saved: bool)
    requires Inv(cfg, s) && id in s.jobs && s.jobs[id].kind == ParseJob && GoodRequest(req)
    ensures Inv(cfg, CreateChild(cfg, s, id, req, saved))
  {
    hide Balanced, WithinCapacity, Bounded, Enqueues;
    var s' := CreateChild(cfg, s, id, req, saved);
    if s' != s {
      var mid := if ChildOf(id) in s.jobs then s else Enqueue(cfg, s, ChildOf(id), ChildRequest(s, id, req), Some(id));
      if ChildOf(id) !in s.jobs {
        EnqueueOk(cfg, s, ChildOf(id), ChildRequest(s, id, req), Some(id));
        assert mid.jobs.Keys == s.jobs.Keys + {ChildOf(id)};
      }
      if saved {
        LinkOk(cfg, mid, id);
      }
    }
  }

  /** Every call made under the discipline keeps the invariant. */
  lemma StepKeeps(cfg: Config, s: State, e: Event)
    requires Inv(cfg, s) && Allowed(cfg, s, e)
    ensures Inv(cfg, Next(cfg, s, e))
  {
    hide Inv, Finish, Enqueue, WaitOnChild, Held;
    assert cfg.Valid() by { InvValid(cfg, s); }
    match e
    case EnqueueJob(id, req) =>
      if Enqueues(cfg, s, id, req) {
        EnqueueOk(cfg, s, id, req, None);
      } else {
        EnqueueRefused(cfg, s, id, req, None);
      }
    case TryAdmitJob(id, queue, t, r, gpu, now) => AdmitOk(cfg, s, id, queue, t, r, gpu, now);
    case ClaimJob(w, pool, t, kind, gpu, now) => ClaimOk(cfg, s, w, pool, t, kind, gpu, now);
    case RenewLease(id, w, now) =>
      WorkingIsHeld(cfg, s, id, w);
      RenewOk(cfg, s, id, now);
    case CancelJob(id, user) => CancelOk(cfg, s, id, user);
    case CompleteJob(id, text, w) =>
      WorkerEndsOk(cfg, s, id, s.jobs[id].(status := Completed, result := Some(text)), w);
    case FailJob(id, error, w) =>
      WorkerEndsOk(cfg, s, id, s.jobs[id].(status := Failed, error := Some(error)), w);
    case DropJob(id, w) =>
      if !s.jobs[id].status.Terminal() {
        WorkerEndsOk(cfg, s, id, s.jobs[id].(status := Cancelled), w);
      }
    case ReapJob(id, gpu, now) => ReapOk(cfg, s, id, gpu, now);
    case LinkChildJob(id) =>
      if id in s.jobs && s.jobs[id].child.None? && ChildOf(id) in s.jobs {
        LinkOk(cfg, s, id);
      }
    case CreateChildJob(id, req, saved, w) => CreateChildOk(cfg, s, id, req, saved);
    case WaitOnChildJob(id, child, w) => WaitOk(cfg, s, id, w);
  }

  lemma InvValid(cfg: Config, s: State)
    requires Inv(cfg, s)
    ensures cfg.Valid()
  {
  }

  lemma EnqueueRefused(cfg: Config, s: State, id: JobId, req: Request, root: Option<JobId>)
    requires !Enqueues(cfg, s, id, req)
    ensures Enqueue(cfg, s, id, req, root) == s
  {
  }

  // ---------------------------------------------------------------- runs

  ghost function After(cfg: Config, s: State, es: seq<Event>): State
    requires cfg.Valid()
    decreases |es|
  {
    if es == [] then s else After(cfg, Next(cfg, s, es[0]), es[1..])
  }

  ghost predicate Disciplined(cfg: Config, s: State, es: seq<Event>)
    requires cfg.Valid()
    decreases |es|
  {
    es == [] || (Allowed(cfg, s, es[0]) && Disciplined(cfg, Next(cfg, s, es[0]), es[1..]))
  }

  lemma {:induction false} RunKeeps(cfg: Config, s: State, es: seq<Event>)
    requires cfg.Valid() && Inv(cfg, s) && Disciplined(cfg, s, es)
    ensures Inv(cfg, After(cfg, s, es))
    decreases |es|
  {
    hide Inv, Allowed, Next;
    if es != [] {
      StepKeeps(cfg, s, es[0]);
      RunKeeps(cfg, Next(cfg, s, es[0]), es[1..]);
    }
  }

  /** A run and one more event. */
  lemma {:induction false} AfterAppend(cfg: Config, s: State, es: seq<Event>, e: Event)
    requires cfg.Valid()
    ensures After(cfg, s, es + [e]) == Next(cfg, After(cfg, s, es), e)
    ensures Disciplined(cfg, s, es + [e]) <==> Disciplined(cfg, s, es) && Allowed(cfg, After(cfg, s, es), e)
    decreases |es|
  {
    hide Next, Allowed;
    if es == [] {
      assert ([e])[1..] == [];
      assert es + [e] == [e];
    } else {
      AfterAppend(cfg, Next(cfg, s, es[0]), es[1..], e);
      assert (es + [e])[1..] == es[1..] + [e];
    }
  }

  /** How many events of a run satisfy a condition on the store they meet. */
  ghost function CountIn(cfg: Config, s: State, es: seq<Event>, p: (State, Event) -> bool): nat
    requires cfg.Valid()
    decreases |es|
  {
    if es == [] then 0 else (if p(s, es[0]) then 1 else 0) + CountIn(cfg, Next(cfg, s, es[0]), es[1..], p)
  }

  lemma {:induction false} CountAppend(cfg: Config, s: State, es: seq<Event>, e: Event, p: (State, Event) -> bool)
    requires cfg.Valid()
    ensures CountIn(cfg, s, es + [e], p) == CountIn(cfg, s, es, p) + if p(After(cfg, s, es), e) then 1 else 0
    decreases |es|
  {
    hide Next;
    if es == [] {
      assert es + [e] == [e];
      assert ([e])[1..] == [];
    } else {
      CountAppend(cfg, Next(cfg, s, es[0]), es[1..], e, p);
      assert (es + [e])[1..] == es[1..] + [e];
    }
  }
}
