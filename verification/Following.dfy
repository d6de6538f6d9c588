/** Exactly when roots follow their children and ended jobs leave the queues. */
module Following {
  import opened Common
  import opened RedisLists
  import opened Jobs
  import opened Admission
  import opened Lifecycle
  import opened Ledger
  import opened Invariant
  import opened Steps
  import opened Runs
  import opened Theorems
  import opened Outcomes
  import opened RootChild

  ghost predicate AllFollow(s: State) {
    forall id {:trigger RootFollows(s, id)} | id in s.jobs :: RootFollows(s, id)
  }

  /** A claim that pops an ended root whose child has ended, and starts it or queues it again. */
  ghost predicate RevivesRoot(s: State, e: Event) {
    && e.ClaimJob? && Claimable(s, e.pool, e.target).Some?
    && var x := Claimable(s, e.pool, e.target).value;
       && x in s.jobs && s.jobs[x].status.Terminal()
       && ChildOf(x) in s.jobs && s.jobs[ChildOf(x)].status.Terminal()
       && ((e.kind.Some? && s.jobs[x].targetKind != e.kind.value) || !Expired(s.jobs[x], e.now))
  }

  /** An ended job stays ended, unless a claim pops it. */
  lemma StaysEnded(cfg: Config, s: State, e: Event, x: JobId)
    requires Inv(cfg, s) && cfg.Valid() && Allowed(cfg, s, e) && x in s.jobs && s.jobs[x].status.Terminal()
    requires !(e.ClaimJob? && Claimable(s, e.pool, e.target) == Some(x))
    ensures x in Next(cfg, s, e).jobs && Next(cfg, s, e).jobs[x].status.Terminal()
  {
    hide Inv, Allowed, MarkCompleted, MarkFailed;
    if e.CompleteJob? && e.id == x {
      EndingsRecorded(cfg, s, x, e.text, Some(e.worker));
    } else if e.FailJob? && e.id == x {
      EndingsRecorded(cfg, s, x, e.error, Some(e.worker));
    } else {
      hide Next;
      EndedStays(cfg, s, e, x);
    }
  }

  lemma FinishKeys(s: State, id: JobId, j: Job, worker: Option<WorkerId>)
    requires id in s.jobs
    ensures Finish(s, id, j, worker).jobs.Keys == s.jobs.Keys
  {
    hide Release, DropProcessing, RootAfter;
  }

  lemma DropKeys(s: State, id: JobId, worker: Option<WorkerId>)
    ensures MarkCancelled(s, id, worker).jobs.Keys == s.jobs.Keys
  {
    hide Finish;
    if id in s.jobs {
      FinishKeys(s, id, s.jobs[id].(status := Cancelled), worker);
    }
  }

  lemma CancelKeys(s: State, id: JobId, user: string)
    ensures Cancel(s, id, user).jobs.Keys == s.jobs.Keys
  {
    hide MarkCancelled, RemoveOne;
    if id in s.jobs {
      var j := s.jobs[id];
      DropKeys(s.(lists := RemoveOne(s.lists, Pending(j.cls, j.priority), id)), id, None);
      if j.target.Some? {
        DropKeys(s.(lists := RemoveOne(s.lists, Dispatch(PoolFor(j.cls), j.target.value), id)), id, None);
      }
      if Propagates(s, j) {
        var x := j.child.value;
        var c := s.jobs[x];
        DropKeys(s.(lists := RemoveOne(s.lists, Pending(c.cls, c.priority), x)), x, None);
        if c.target.Some? {
          DropKeys(s.(lists := RemoveOne(s.lists, Dispatch(PoolFor(c.cls), c.target.value), x)), x, None);
        }
      }
    }
  }

  lemma ReapKeys(cfg: Config, s: State, id: JobId, gpuWorkers: bool, now: int)
    ensures Reap(cfg, s, id, gpuWorkers, now).jobs.Keys == s.jobs.Keys
  {
    hide Release, RemoveOne, RPush, MarkCancelled, Finish, DropProcessing;
    if id in s.jobs {
      var j := s.jobs[id];
      DropKeys(s, id, j.worker);
      if j.target.Some? {
        DropKeys(s.(lists := RemoveOne(s.lists, Dispatch(PoolFor(j.cls), j.target.value), id)), id, j.worker);
      }
      FinishKeys(s, id, j.(status := Failed, error := Some(DEADLINE_EXCEEDED_ERROR)), j.worker);
      FinishKeys(s, id, j.(retryCount := j.retryCount + 1).(status := Failed, error := Some(GENERIC_CHAT_ERROR)),
          j.worker);
    }
  }

  lemma ClaimKeys(cfg: Config, s: State, w: WorkerId, pool: Pool, t: TargetId, kind: Option<TargetKind>,
                  gpuWorkers: bool, now: int)
    ensures Claim(cfg, s, w, pool, t, kind, gpuWorkers, now).jobs.Keys == s.jobs.Keys
  {
    hide Release, DropProcessing, RootAfter, RemoveOne, RPush, PopToProcessing;
  }

  lemma AdmitKeys(cfg: Config, s: State, id: JobId, queue: Key, t: TargetId, r: Report, gpuWorkers: bool, now: int)
    requires cfg.Valid() && t in cfg.targets
    ensures TryAdmit(cfg, s, id, queue, t, r, gpuWorkers, now).jobs.Keys == s.jobs.Keys
  {
    hide Evaluate, Reserve, RemoveOne, RPush;
  }

  /** New jobs are queued; a new child has the user of its root. */
  lemma NewIsLive(cfg: Config, s: State, e: Event, x: JobId)
    requires cfg.Valid() && x in Next(cfg, s, e).jobs && x !in s.jobs
    ensures !Next(cfg, s, e).jobs[x].status.Terminal()
    ensures || (e.EnqueueJob? && x == e.id)
            || (e.CreateChildJob? && x == ChildOf(e.id) && e.id in s.jobs
                && Next(cfg, s, e).jobs[x].user == s.jobs[e.id].user)
  {
    hide Finish, Claim, Reap, Cancel, TryAdmit, Release, PendingTotal, QueueLimit, RPush, DropProcessing, RemoveOne;
    match e
    case TryAdmitJob(id, queue, t, r, gpu, now) =>
      if t in cfg.targets {
        AdmitKeys(cfg, s, id, queue, t, r, gpu, now);
      }
    case ClaimJob(w, pool, t, kind, gpu, now) => ClaimKeys(cfg, s, w, pool, t, kind, gpu, now);
    case CancelJob(id, user) => CancelKeys(s, id, user);
    case ReapJob(id, gpu, now) => ReapKeys(cfg, s, id, gpu, now);
    case CompleteJob(id, text, w) =>
      if id in s.jobs {
        FinishKeys(s, id, s.jobs[id].(status := Completed, result := Some(text)), Some(w));
      }
    case FailJob(id, error, w) =>
      if id in s.jobs {
        FinishKeys(s, id, s.jobs[id].(status := Failed, error := Some(error)), Some(w));
      }
    case DropJob(id, w) =>
      if id in s.jobs {
        FinishKeys(s, id, s.jobs[id].(status := Cancelled), Some(w));
      }
    case _ =>
  }

  // ---------------------------------------------------------------- roots follow their children

  lemma FollowsNext(cfg: Config, s: State, e: Event, id: JobId)
    requires Inv(cfg, s) && cfg.Valid() && Allowed(cfg, s, e) && AllFollow(s) && !RevivesRoot(s, e)
    requires id in Next(cfg, s, e).jobs
    ensures RootFollows(Next(cfg, s, e), id)
  {
    hide Inv, Allowed, Next, AllFollow, Expired;
    var s' := Next(cfg, s, e);
    if id.ChildOf? && id.parent in s'.jobs && s'.jobs[id].status.Terminal() {
      if id !in s.jobs {
        NewIsLive(cfg, s, e, id);
      } else {
        var root := id.parent;
        RootOf(cfg, s, id);
        if !s.jobs[id].status.Terminal() {
          RootCarriesOutcome(cfg, s, e, root);
        } else {
          assert RootFollows(s, id) by { FollowsAt(s, id); }
          if e.ClaimJob? && Claimable(s, e.pool, e.target) == Some(root) {
            NextClaim(cfg, s, e);
            ClaimRevives(cfg, s, e.worker, e.pool, e.target, e.kind, e.gpuWorkers, e.now, root);
          } else {
            StaysEnded(cfg, s, e, root);
          }
        }
      }
    }
  }

  lemma FollowsAt(s: State, id: JobId)
    requires AllFollow(s) && id in s.jobs
    ensures RootFollows(s, id)
  {
  }

  lemma RootOf(cfg: Config, s: State, id: JobId)
    requires Inv(cfg, s) && id in s.jobs && id.ChildOf?
    ensures id.parent in s.jobs
  {
    assert JobOk(cfg, s, id);
  }

  lemma NextClaim(cfg: Config, s: State, e: Event)
    requires cfg.Valid() && e.ClaimJob?
    ensures Next(cfg, s, e) == Claim(cfg, s, e.worker, e.pool, e.target, e.kind, e.gpuWorkers, e.now)
  {
  }

  lemma RevivalBreaks(cfg: Config, s: State, e: Event)
    requires Inv(cfg, s) && cfg.Valid() && Allowed(cfg, s, e) && RevivesRoot(s, e)
    ensures !AllFollow(Next(cfg, s, e))
  {
    hide Inv, Allowed, Next, Expired;
    var x := Claimable(s, e.pool, e.target).value;
    NextClaim(cfg, s, e);
    ClaimRevives(cfg, s, e.worker, e.pool, e.target, e.kind, e.gpuWorkers, e.now, x);
    StaysEnded(cfg, s, e, ChildOf(x));
    assert !RootFollows(Next(cfg, s, e), ChildOf(x));
  }

  /**
    Exactly when a disciplined step keeps every ended child's root ended: it is not a claim that
    revives such a root.
  */
  lemma FollowExact(cfg: Config, s: State, e: Event)
    requires Inv(cfg, s) && cfg.Valid() && Allowed(cfg, s, e) && AllFollow(s)
    ensures AllFollow(Next(cfg, s, e)) <==> !RevivesRoot(s, e)
  {
    hide Inv, Allowed, Next, RevivesRoot, RootFollows;
    if RevivesRoot(s, e) {
      RevivalBreaks(cfg, s, e);
    } else {
      forall id | id in Next(cfg, s, e).jobs
        ensures RootFollows(Next(cfg, s, e), id)
      {
        FollowsNext(cfg, s, e, id);
      }
    }
  }

  /** The property holds in every store the run passes through. */
  ghost predicate AlwaysFollow(cfg: Config, s: State, es: seq<Event>)
    requires cfg.Valid()
    decreases |es|
  {
    AllFollow(s) && (es == [] || AlwaysFollow(cfg, Next(cfg, s, es[0]), es[1..]))
  }

  ghost predicate NoRevival(cfg: Config, s: State, es: seq<Event>)
    requires cfg.Valid()
    decreases |es|
  {
    es == [] || (!RevivesRoot(s, es[0]) && NoRevival(cfg, Next(cfg, s, es[0]), es[1..]))
  }

  /** A disciplined run has the property all along exactly when none of its claims revives such a root. */
  lemma {:induction false} FollowRunExact(cfg: Config, s: State, es: seq<Event>)
    requires cfg.Valid() && Inv(cfg, s) && AllFollow(s) && Disciplined(cfg, s, es)
    ensures AlwaysFollow(cfg, s, es) <==> NoRevival(cfg, s, es)
    decreases |es|
  {
    hide Inv, Allowed, Next, RevivesRoot, AllFollow;
    if es != [] {
      StepKeeps(cfg, s, es[0]);
      FollowExact(cfg, s, es[0]);
      if !RevivesRoot(s, es[0]) {
        FollowRunExact(cfg, Next(cfg, s, es[0]), es[1..]);
      } else {
        NotFromThere(cfg, Next(cfg, s, es[0]), es[1..]);
      }
    }
  }

  lemma NotFromThere(cfg: Config, s: State, es: seq<Event>)
    requires cfg.Valid() && !AllFollow(s)
    ensures !AlwaysFollow(cfg, s, es)
  {
    hide AllFollow;
  }

  /** From the empty store, for every disciplined run. */
  lemma RootFollowsExactly(cfg: Config, es: seq<Event>)
    requires cfg.Valid() && Disciplined(cfg, EMPTY, es)
    ensures AlwaysFollow(cfg, EMPTY, es) <==> NoRevival(cfg, EMPTY, es)
  {
    InitialInv(cfg);
    FollowRunExact(cfg, EMPTY, es);
  }

  /** Strict runs are among them. */
  lemma {:induction false} StrictHasNoRevival(cfg: Config, s: State, es: seq<Event>)
    requires cfg.Valid() && Inv(cfg, s) && AllOrderly(s) && StrictRun(cfg, s, es)
    ensures Disciplined(cfg, s, es) && NoRevival(cfg, s, es)
    decreases |es|
  {
    hide Inv, Allowed, Next, RevivesRoot, AllOrderly, Strict;
    if es != [] {
      StepKeeps(cfg, s, es[0]);
      StepOrderly(cfg, s, es[0]);
      OrderlyClaims(cfg, s, es[0]);
      StrictHasNoRevival(cfg, Next(cfg, s, es[0]), es[1..]);
    }
  }

  lemma OrderlyClaims(cfg: Config, s: State, e: Event)
    requires Inv(cfg, s) && AllOrderly(s)
    ensures !RevivesRoot(s, e)
  {
    hide Inv, Expired, PastQueues, RootFollows;
    if e.ClaimJob? && Claimable(s, e.pool, e.target).Some? {
      Popped(cfg, s, "", e.pool, e.target);
      assert Orderly(s, Claimable(s, e.pool, e.target).value);
    }
  }

  // ---------------------------------------------------------------- ended jobs leave the queues

  /** The job a call ends, if it ends one. */
  ghost function Finishes(cfg: Config, s: State, e: Event): Option<JobId> {
    match e
    case CompleteJob(id, _, _) => if id in s.jobs then Some(id) else None
    case FailJob(id, _, _) => if id in s.jobs then Some(id) else None
    case DropJob(id, _) => if id in s.jobs && !s.jobs[id].status.Terminal() then Some(id) else None
    case ReapJob(id, _, now) =>
      if ReapBranch(cfg, s, id, now) in {DropCancelled, FailDeadline, FailRetries} then Some(id) else None
    case ClaimJob(_, pool, t, kind, _, now) =>
      (match Claimable(s, pool, t)
       case None => None
       case Some(id) =>
         if id in s.jobs && (kind.None? || s.jobs[id].targetKind == kind.value) && Expired(s.jobs[id], now)
         then Some(id) else None)
    case CancelJob(id, user) => CancelEnds(s, id, user)
    case _ => None
  }

  /** The job a cancellation ends at once: the job itself, or the listed child of a running root. */
  function CancelEnds(s: State, id: JobId, user: string): Option<JobId> {
    if id !in s.jobs then None
    else
      var j := s.jobs[id];
      if (user != "" && j.user != user) || j.status.Terminal() || j.cancelRequested then None
      else if j.status == Queued || (j.status == Admitted && j.target.Some?) then Some(id)
      else if Propagates(s, j) && s.jobs[j.child.value].status in {Queued, Admitted} then j.child
      else None
  }

  /** The call ends a child whose root is back in a pending or dispatch list. */
  ghost predicate Strands(cfg: Config, s: State, e: Event) {
    match Finishes(cfg, s, e)
    case None => false
    case Some(c) => c.ChildOf? && c.parent in s.jobs && s.jobs[c.parent].status in {Queued, Admitted}
  }

  /** Ending a job: the others keep clear of the queues, except a root that is listed. */
  lemma EndedQueues(cfg: Config, s: State, s': State, c: JobId)
    requires Inv(cfg, s) && QueuesClean(s) && c in s.jobs && Frame(s, s', c) && Ended(s', c)
    requires c.ChildOf? && c.parent in s.jobs ==> c.parent in s'.jobs && s'.jobs[c.parent].status.Terminal()
    ensures QueuesClean(s') <==> !(c.ChildOf? && c.parent in s.jobs && s.jobs[c.parent].status in {Queued, Admitted})
  {
    hide Balanced, WithinCapacity, Bounded, NoStrays, Ended;
    assert OffTheQueues(s', c) by { EndedOff(s', c); }
    if c.ChildOf? && c.parent in s.jobs {
      var root := c.parent;
      assert JobOk(cfg, s, root) && OffTheQueues(s, root);
      assert SameSeat(s.jobs[root], s'.jobs[root]);
      assert Occurs(s'.lists, Home(s.jobs[root]), root) == Occurs(s.lists, Home(s.jobs[root]), root);
      assert OffTheQueues(s', root) <==> s.jobs[root].status !in {Queued, Admitted};
    }
    forall x | x in s'.jobs && x != c && c != ChildOf(x)
      ensures OffTheQueues(s', x)
    {
      OthersOffTheQueues(s, s', c, x);
    }
  }

  lemma EndedOff(s: State, c: JobId)
    requires Ended(s, c)
    ensures c in s.jobs && OffTheQueues(s, c)
  {
  }

  /** A step that leaves its job live, or only rewrites a record in place, strands nobody. */
  lemma LiveQueues(s: State, s': State, id: JobId)
    requires QueuesClean(s) && Frame(s, s', id) && !s'.jobs[id].status.Terminal()
    ensures QueuesClean(s')
  {
    hide Occurs;
    forall x | x in s'.jobs
      ensures OffTheQueues(s', x)
    {
      if x != id {
        assert OffTheQueues(s, x);
        assert Spared(s.jobs[x], s'.jobs[x], x, id, s'.jobs[id]);
        assert Occurs(s'.lists, Home(s.jobs[x]), x) == Occurs(s.lists, Home(s.jobs[x]), x);
      }
    }
  }

  lemma RecordQueues(s: State, s': State, id: JobId)
    requires QueuesClean(s) && id in s.jobs && id in s'.jobs
    requires s'.lists == s.lists && s'.jobs == s.jobs[id := s'.jobs[id]]
    requires s'.jobs[id].status == s.jobs[id].status && Home(s'.jobs[id]) == Home(s.jobs[id])
    ensures QueuesClean(s')
  {
    forall x | x in s'.jobs
      ensures OffTheQueues(s', x)
    {
      assert OffTheQueues(s, x);
    }
  }

  /** A root that is still live ends with its child. */
  lemma FinishEndsRoot(s: State, c: JobId, j: Job, worker: Option<WorkerId>)
    requires c.ChildOf? && j.root == Some(c.parent) && c.parent in s.jobs && c.parent != c && j.status.Terminal()
    ensures c.parent in Finish(s, c, j, worker).jobs && Finish(s, c, j, worker).jobs[c.parent].status.Terminal()
  {
    hide Release, DropProcessing;
  }

  lemma WorkerQueues(cfg: Config, s: State, c: JobId, j: Job, w: WorkerId)
    requires Inv(cfg, s) && QueuesClean(s) && Working(s, c, w)
    requires SameSeat(j, s.jobs[c]) && j.child == s.jobs[c].child && j.status.Terminal()
    ensures QueuesClean(Finish(s, c, j, Some(w)))
            <==> !(c.ChildOf? && c.parent in s.jobs && s.jobs[c.parent].status in {Queued, Admitted})
  {
    hide Inv, QueuesClean, Finish, Frame, Ended;
    WorkerEndsOk(cfg, s, c, j, w);
    Roots(cfg, s, c);
    if c.ChildOf? {
      FinishEndsRoot(s, c, j, Some(w));
    }
    EndedQueues(cfg, s, Finish(s, c, j, Some(w)), c);
  }

  lemma ListedQueues(cfg: Config, s: State, c: JobId)
    requires Inv(cfg, s) && QueuesClean(s) && c in s.jobs && s.jobs[c].status in {Queued, Admitted}
    ensures var s1 := s.(lists := RemoveOne(s.lists, Home(s.jobs[c]), c));
            QueuesClean(MarkCancelled(s1, c, None))
            <==> !(c.ChildOf? && c.parent in s.jobs && s.jobs[c.parent].status in {Queued, Admitted})
  {
    hide Inv, QueuesClean, Finish, Frame, Ended, RemoveOne;
    var s1 := s.(lists := RemoveOne(s.lists, Home(s.jobs[c]), c));
    EndListedOk(cfg, s, c);
    Roots(cfg, s, c);
    if c.ChildOf? {
      FinishEndsRoot(s1, c, s1.jobs[c].(status := Cancelled), None);
    }
    EndedQueues(cfg, s, MarkCancelled(s1, c, None), c);
  }

  /** A cancellation ends a listed job, or flags one, or does nothing. */
  lemma CancelIs(cfg: Config, s: State, id: JobId, user: string)
    requires Inv(cfg, s)
    ensures match CancelEnds(s, id, user)
            case Some(c) =>
              && c in s.jobs && s.jobs[c].status in {Queued, Admitted}
              && Cancel(s, id, user) == MarkCancelled(s.(lists := RemoveOne(s.lists, Home(s.jobs[c]), c)), c, None)
            case None =>
              || Cancel(s, id, user) == s
              || (id in s.jobs && Cancel(s, id, user) == RequestCancel(s, id))
              || (id in s.jobs && s.jobs[id].child.Some? && s.jobs[id].child.value in s.jobs
                  && Cancel(s, id, user) == RequestCancel(s, s.jobs[id].child.value))
  {
    hide Inv, MarkCancelled, RemoveOne;
    if id in s.jobs {
      SeatOf(cfg, s, id);
      if s.jobs[id].child.Some? {
        SeatOf(cfg, s, s.jobs[id].child.value);
      }
    }
  }

  lemma FlagQueues(s: State, c: JobId)
    requires QueuesClean(s) && c in s.jobs
    ensures QueuesClean(RequestCancel(s, c))
  {
    hide QueuesClean;
    RecordQueues(s, RequestCancel(s, c), c);
  }

  lemma CancelQueues(cfg: Config, s: State, id: JobId, user: string)
    requires Inv(cfg, s) && QueuesClean(s)
    ensures QueuesClean(Cancel(s, id, user)) <==> !Strands(cfg, s, CancelJob(id, user))
  {
    hide Inv, QueuesClean, MarkCancelled, RemoveOne, Cancel, CancelEnds, RequestCancel, Home;
    CancelIs(cfg, s, id, user);
    match CancelEnds(s, id, user) {
      case Some(c) => ListedQueues(cfg, s, c);
      case None =>
        if id in s.jobs {
          FlagQueues(s, id);
          if s.jobs[id].child.Some? && s.jobs[id].child.value in s.jobs {
            FlagQueues(s, s.jobs[id].child.value);
          }
        }
    }
  }

  lemma ClaimQueues(cfg: Config, s: State, e: Event)
    requires Inv(cfg, s) && QueuesClean(s) && cfg.Valid() && e.ClaimJob?
    ensures QueuesClean(Next(cfg, s, e)) <==> !Strands(cfg, s, e)
  {
    hide Inv, QueuesClean, Claim, Expired, Nowhere, OnlyAt, Frame, Ended;
    var s' := Claim(cfg, s, e.worker, e.pool, e.target, e.kind, e.gpuWorkers, e.now);
    if Claimable(s, e.pool, e.target).Some? {
      var id := Claimable(s, e.pool, e.target).value;
      Popped(cfg, s, e.worker, e.pool, e.target);
      ClaimOk(cfg, s, e.worker, e.pool, e.target, e.kind, e.gpuWorkers, e.now);
      ClaimOutcome(cfg, s, e.worker, e.pool, e.target, e.kind, e.gpuWorkers, e.now, id);
      if Finishes(cfg, s, e).Some? {
        assert Ended(s', id) by { NowhereEnds(s', id); }
        ExpiredClaim(cfg, s, e);
        EndedQueues(cfg, s, s', id);
      } else {
        LiveQueues(s, s', id);
      }
    } else {
      ClaimLeaves(cfg, s, e.worker, e.pool, e.target, e.kind, e.gpuWorkers, e.now);
    }
  }

  lemma NowhereEnds(s: State, id: JobId)
    requires id in s.jobs && s.jobs[id].status.Terminal() && Nowhere(s, id)
    ensures Ended(s, id)
  {
  }

  lemma ExpiredClaim(cfg: Config, s: State, e: Event)
    requires Inv(cfg, s) && e.ClaimJob? && Finishes(cfg, s, e).Some?
    ensures var c := Finishes(cfg, s, e).value;
            var s' := Claim(cfg, s, e.worker, e.pool, e.target, e.kind, e.gpuWorkers, e.now);
            c.ChildOf? && c.parent in s.jobs ==> c.parent in s'.jobs && s'.jobs[c.parent].status.Terminal()
  {
    hide Inv, PopToProcessing, Finish;
    var c := Finishes(cfg, s, e).value;
    Roots(cfg, s, c);
    if c.ChildOf? {
      FinishEndsRoot(s.(lists := PopToProcessing(s.lists, Dispatch(e.pool, e.target), Processing(e.worker))), c,
                     s.jobs[c].(status := Failed, error := Some(DEADLINE_EXCEEDED_ERROR)), Some(e.worker));
    }
  }

  lemma ReapQueues(cfg: Config, s: State, e: Event)
    requires Inv(cfg, s) && QueuesClean(s) && cfg.Valid() && e.ReapJob? && Reapable(cfg, s, e.id, e.now)
    ensures QueuesClean(Next(cfg, s, e)) <==> !Strands(cfg, s, e)
  {
    hide Inv, QueuesClean, Frame, Ended, Finish, Release, RemoveOne, DropProcessing, RPush, MarkCancelled;
    var s' := Reap(cfg, s, e.id, e.gpuWorkers, e.now);
    ReapOk(cfg, s, e.id, e.gpuWorkers, e.now);
    match ReapBranch(cfg, s, e.id, e.now)
    case Keep =>
    case Forget => SameQueues(s, s');
    case Retry => LiveQueues(s, s', e.id);
    case _ =>
      ReapEndsRoot(cfg, s, e);
      EndedQueues(cfg, s, s', e.id);
  }

  lemma SameQueues(s: State, s': State)
    requires QueuesClean(s) && s'.jobs == s.jobs && s'.lists == s.lists
    ensures QueuesClean(s')
  {
    forall x | x in s'.jobs
      ensures OffTheQueues(s', x)
    {
      assert OffTheQueues(s, x);
    }
  }

  lemma ReapEndsRoot(cfg: Config, s: State, e: Event)
    requires Inv(cfg, s) && e.ReapJob? && ReapBranch(cfg, s, e.id, e.now) in {DropCancelled, FailDeadline, FailRetries}
    ensures var s' := Reap(cfg, s, e.id, e.gpuWorkers, e.now);
            e.id.ChildOf? && e.id.parent in s.jobs ==> e.id.parent in s'.jobs && s'.jobs[e.id.parent].status.Terminal()
  {
    hide Inv, Finish, RemoveOne;
    var c, j := e.id, s.jobs[e.id];
    Roots(cfg, s, c);
    if c.ChildOf? {
      FinishEndsRoot(s, c, j.(status := Cancelled), j.worker);
      if j.target.Some? {
        FinishEndsRoot(s.(lists := RemoveOne(s.lists, Dispatch(PoolFor(j.cls), j.target.value), c)), c,
                       j.(status := Cancelled), j.worker);
      }
      FinishEndsRoot(s, c, j.(status := Failed, error := Some(DEADLINE_EXCEEDED_ERROR)), j.worker);
      FinishEndsRoot(s, c, j.(retryCount := j.retryCount + 1).(status := Failed, error := Some(GENERIC_CHAT_ERROR)),
          j.worker);
    }
  }

  lemma AdmitQueues(cfg: Config, s: State, id: JobId, queue: Key, t: TargetId, r: Report, gpuWorkers: bool, now: int)
    requires Inv(cfg, s) && QueuesClean(s) && t in cfg.targets
    ensures QueuesClean(TryAdmit(cfg, s, id, queue, t, r, gpuWorkers, now))
  {
    hide Inv, QueuesClean, Evaluate, Reserve, RPush, RemoveOne, Frame;
    InvValid(cfg, s);
    if id in s.jobs && s.jobs[id].status == Queued {
      var s' := TryAdmit(cfg, s, id, queue, t, r, gpuWorkers, now);
      if Admits(cfg, s, id, queue, t, r, gpuWorkers) {
        AdmittedOk(cfg, s, id, queue, t, r, gpuWorkers, now);
        LiveQueues(s, s', id);
      } else {
        RecordQueues(s, s', id);
      }
    }
  }

  lemma CreateQueues(cfg: Config, s: State, id: JobId, req: Request, saved: bool)
    requires Inv(cfg, s) && QueuesClean(s) && id in s.jobs && s.jobs[id].kind == ParseJob && GoodRequest(req)
    ensures QueuesClean(CreateChild(cfg, s, id, req, saved))
  {
    hide Inv, QueuesClean, Enqueues, Frame, RPush;
    var s' := CreateChild(cfg, s, id, req, saved);
    if s' != s {
      var mid := if ChildOf(id) in s.jobs then s else Enqueue(cfg, s, ChildOf(id), ChildRequest(s, id, req), Some(id));
      if ChildOf(id) !in s.jobs {
        EnqueueOk(cfg, s, ChildOf(id), ChildRequest(s, id, req), Some(id));
        LiveQueues(s, mid, ChildOf(id));
      }
      if saved {
        RecordQueues(mid, s', id);
      }
    }
  }

  lemma WaitQueues(cfg: Config, s: State, id: JobId, w: WorkerId)
    requires Inv(cfg, s) && QueuesClean(s) && Working(s, id, w)
    ensures QueuesClean(WaitOnChild(s, id, ChildOf(id), Some(w)))
  {
    hide Balanced, WithinCapacity, Bounded, NoStrays, Release, LRem;
    var s' := WaitOnChild(s, id, ChildOf(id), Some(w));
    assert JobOk(cfg, s, id);
    assert Occurs(s.lists, Processing(w), id) > 0;
    Unlisted(s, id, s'.lists, Processing(w));
    forall x | x in s'.jobs
      ensures OffTheQueues(s', x)
    {
      assert OffTheQueues(s, x);
    }
  }

  /**
    Exactly when a disciplined step leaves no ended job in a pending or dispatch list: it does not
    end a child whose root is queued or admitted, whichever call ends it.
  */
  lemma StrandExact(cfg: Config, s: State, e: Event)
    requires Inv(cfg, s) && cfg.Valid() && Allowed(cfg, s, e) && QueuesClean(s)
    ensures QueuesClean(Next(cfg, s, e)) <==> !Strands(cfg, s, e)
  {
    hide Inv, QueuesClean, Finish, WaitOnChild, Claim, Cancel, Reap, TryAdmit, CreateChild, Held, Frame, Enqueues,
        RPush;
    match e
    case EnqueueJob(id, req) =>
      if Enqueues(cfg, s, id, req) {
        EnqueueOk(cfg, s, id, req, None);
        LiveQueues(s, Enqueue(cfg, s, id, req, None), id);
      }
    case TryAdmitJob(id, queue, t, r, gpu, now) => AdmitQueues(cfg, s, id, queue, t, r, gpu, now);
    case ClaimJob(w, pool, t, kind, gpu, now) => ClaimQueues(cfg, s, e);
    case RenewLease(id, w, now) =>
      if Renew(cfg, s, id, now) != s {
        RecordQueues(s, Renew(cfg, s, id, now), id);
      }
    case CancelJob(id, user) => CancelQueues(cfg, s, id, user);
    case CompleteJob(id, text, w) =>
      WorkerQueues(cfg, s, id, s.jobs[id].(status := Completed, result := Some(text)), w);
    case FailJob(id, error, w) =>
      WorkerQueues(cfg, s, id, s.jobs[id].(status := Failed, error := Some(error)), w);
    case DropJob(id, w) =>
      if !s.jobs[id].status.Terminal() {
        WorkerQueues(cfg, s, id, s.jobs[id].(status := Cancelled), w);
      }
    case ReapJob(id, gpu, now) => ReapQueues(cfg, s, e);
    case LinkChildJob(id) =>
      if LinkChild(s, id) != s {
        RecordQueues(s, LinkChild(s, id), id);
      }
    case CreateChildJob(id, req, saved, w) => CreateQueues(cfg, s, id, req, saved);
    case WaitOnChildJob(id, child, w) => WaitQueues(cfg, s, id, w);
  }

  ghost predicate AlwaysClean(cfg: Config, s: State, es: seq<Event>)
    requires cfg.Valid()
    decreases |es|
  {
    QueuesClean(s) && (es == [] || AlwaysClean(cfg, Next(cfg, s, es[0]), es[1..]))
  }

  ghost predicate NoneStranded(cfg: Config, s: State, es: seq<Event>)
    requires cfg.Valid()
    decreases |es|
  {
    es == [] || (!Strands(cfg, s, es[0]) && NoneStranded(cfg, Next(cfg, s, es[0]), es[1..]))
  }

  lemma {:induction false} CleanRunExact(cfg: Config, s: State, es: seq<Event>)
    requires cfg.Valid() && Inv(cfg, s) && QueuesClean(s) && Disciplined(cfg, s, es)
    ensures AlwaysClean(cfg, s, es) <==> NoneStranded(cfg, s, es)
    decreases |es|
  {
    hide Inv, Allowed, Next, Strands, QueuesClean;
    if es != [] {
      StepKeeps(cfg, s, es[0]);
      StrandExact(cfg, s, es[0]);
      if !Strands(cfg, s, es[0]) {
        CleanRunExact(cfg, Next(cfg, s, es[0]), es[1..]);
      } else {
        NotCleanThere(cfg, Next(cfg, s, es[0]), es[1..]);
      }
    }
  }

  lemma NotCleanThere(cfg: Config, s: State, es: seq<Event>)
    requires cfg.Valid() && !QueuesClean(s)
    ensures !AlwaysClean(cfg, s, es)
  {
    hide QueuesClean;
  }

  /**
    For every disciplined run: no ended job is ever in a pending or dispatch list exactly when no
    call of the run ends a child while its root is queued or admitted.
  */
  lemma QueuesCleanExactly(cfg: Config, es: seq<Event>)
    requires cfg.Valid() && Disciplined(cfg, EMPTY, es)
    ensures AlwaysClean(cfg, EMPTY, es) <==> NoneStranded(cfg, EMPTY, es)
  {
    InitialInv(cfg);
    CleanRunExact(cfg, EMPTY, es);
  }
}
