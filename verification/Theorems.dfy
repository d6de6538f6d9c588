/** What the invariant says about every disciplined run, in the control plane's own terms. */
module Theorems {
  import opened Common
  import opened RedisLists
  import opened Jobs
  import opened Admission
  import opened Lifecycle
  import opened Ledger
  import opened Invariant
  import opened Steps
  import opened Runs

  // ---------------------------------------------------------------- conservation

  /** The jobs of a target that sit in some dispatch or processing list. */
  ghost predicate InSomeLane(s: State, id: JobId) {
    exists k: Key :: !k.Pending? && Occurs(s.lists, k, id) > 0
  }

  lemma HeldIsPresence(cfg: Config, s: State, t: TargetId)
    requires Inv(cfg, s)
    ensures forall id :: id in Holders(s, t) <==> id in s.jobs && s.jobs[id].target == Some(t) && InSomeLane(s, id)
  {
    forall id
      ensures id in Holders(s, t) <==> id in s.jobs && s.jobs[id].target == Some(t) && InSomeLane(s, id)
    {
      if id in s.jobs && s.jobs[id].target == Some(t) {
        assert JobOk(cfg, s, id);
        if Held(s, id) {
          assert !Home(s.jobs[id]).Pending?;
        }
      }
    }
  }

  /**
    Capacity conservation: after every disciplined run, each counter of each target is the sum
    over the jobs of that target that sit in a dispatch or processing list.
  */
  lemma CapacityConserved(cfg: Config, es: seq<Event>, t: TargetId, f: Field)
    requires cfg.Valid() && Disciplined(cfg, EMPTY, es)
    ensures var s := After(cfg, EMPTY, es);
            && CounterAt(s.counters, t, f) == Total(s.jobs, Holders(s, t), f)
            && (forall id :: id in Holders(s, t) <==> id in s.jobs && s.jobs[id].target == Some(t) && InSomeLane(s, id))
  {
    InitialInv(cfg);
    RunKeeps(cfg, EMPTY, es);
    HeldIsPresence(cfg, After(cfg, EMPTY, es), t);
  }

  /** The clamp to zero in a release never changes a counter: the release of a held job is exact. */
  lemma ReleaseNeverClamps(cfg: Config, es: seq<Event>, id: JobId)
    requires cfg.Valid() && Disciplined(cfg, EMPTY, es)
    requires id in After(cfg, EMPTY, es).jobs && Held(After(cfg, EMPTY, es), id)
    ensures var s := After(cfg, EMPTY, es);
            var j := s.jobs[id];
            forall t, f ::
              CounterAt(Release(s.counters, j), t, f)
              == CounterAt(s.counters, t, f) - if j.target == Some(t) then Weight(f, j) else 0
  {
    InitialInv(cfg);
    RunKeeps(cfg, EMPTY, es);
    var s := After(cfg, EMPTY, es);
    assert JobOk(cfg, s, id);
    HeldIsCovered(s, id);
    ReleaseSubtracts(s.counters, s.jobs[id]);
  }

  // ---------------------------------------------------------------- capacity

  /** No overcommit: base tokens bound the reservations, or one chat or parse job has a CPU target to itself. */
  lemma NoOvercommit(cfg: Config, es: seq<Event>, t: TargetId)
    requires cfg.Valid() && Disciplined(cfg, EMPTY, es) && t in cfg.targets
    ensures var s := After(cfg, EMPTY, es);
            || Total(s.jobs, Holders(s, t), Tokens) <= BaseTokens(cfg.targets[t])
            || (&& cfg.targets[t].kind == Cpu
                && exists id :: id in s.jobs && Holders(s, t) == {id} && s.jobs[id].cls in {Chat, Parse})
  {
    InitialInv(cfg);
    RunKeeps(cfg, EMPTY, es);
    assert WithinCapacity(cfg, After(cfg, EMPTY, es), t);
  }

  lemma {:induction false} TokensCoverMemory(jobs: map<JobId, Job>, ids: set<JobId>, g: nat)
    requires ids <= jobs.Keys
    requires forall id | id in ids :: jobs[id].vram + jobs[id].ram <= jobs[id].tokens * g
    ensures Total(jobs, ids, Vram) + Total(jobs, ids, Ram) <= Total(jobs, ids, Tokens) * g
    decreases |ids|
  {
    if ids != {} {
      var id :| id in ids;
      TotalSplit(jobs, ids, id, Vram);
      TotalSplit(jobs, ids, id, Ram);
      TotalSplit(jobs, ids, id, Tokens);
      TokensCoverMemory(jobs, ids - {id}, g);
      assert (jobs[id].tokens + Total(jobs, ids - {id}, Tokens)) * g
          == jobs[id].tokens * g + Total(jobs, ids - {id}, Tokens) * g;
    }
  }

  lemma TokensCoverTarget(cfg: Config, s: State, t: TargetId)
    requires Inv(cfg, s)
    ensures CounterAt(s.counters, t, Vram) + CounterAt(s.counters, t, Ram)
            <= CounterAt(s.counters, t, Tokens) * cfg.Granule()
  {
    hide WithinCapacity, Bounded, NoStrays;
    forall id | id in Holders(s, t)
      ensures s.jobs[id].vram + s.jobs[id].ram <= s.jobs[id].tokens * cfg.Granule()
    {
      assert JobOk(cfg, s, id);
    }
    TokensCoverMemory(s.jobs, Holders(s, t), cfg.Granule());
  }

  lemma ScaleUp(a: int, b: int, g: nat)
    requires a <= b
    ensures a * g <= b * g
  {
  }

  /** Reserved memory is within the reserved tokens, hence within the base unless the oversize job is there. */
  lemma MemoryCovered(cfg: Config, es: seq<Event>, t: TargetId)
    requires cfg.Valid() && Disciplined(cfg, EMPTY, es) && t in cfg.targets
    ensures var s := After(cfg, EMPTY, es);
            var memory := CounterAt(s.counters, t, Vram) + CounterAt(s.counters, t, Ram);
            && memory <= CounterAt(s.counters, t, Tokens) * cfg.Granule()
            && (|| memory <= BaseTokens(cfg.targets[t]) * cfg.Granule()
                || (&& cfg.targets[t].kind == Cpu
                    && exists id :: id in s.jobs && Holders(s, t) == {id} && s.jobs[id].cls in {Chat, Parse}))
  {
    InitialInv(cfg);
    RunKeeps(cfg, EMPTY, es);
    var s := After(cfg, EMPTY, es);
    assert WithinCapacity(cfg, s, t);
    TokensCoverTarget(cfg, s, t);
    var tokens := CounterAt(s.counters, t, Tokens);
    if tokens <= BaseTokens(cfg.targets[t]) {
      ScaleUp(tokens, BaseTokens(cfg.targets[t]), cfg.Granule());
    }
  }

  /**
    Bounded whole system: waiting jobs and jobs with a reservation together never exceed the
    queue limit plus one base share per target, however often jobs are re-queued.
  */
  lemma WholeSystemBounded(cfg: Config, es: seq<Event>)
    requires cfg.Valid() && Disciplined(cfg, EMPTY, es)
    ensures var s := After(cfg, EMPTY, es);
            && PendingTotal(s.lists) + |HeldSet(s)| <= QueueLimit(cfg) + ClusterTokens(cfg)
            && |HeldSet(s)| <= ClusterTokens(cfg)
  {
    InitialInv(cfg);
    RunKeeps(cfg, EMPTY, es);
    HeldBelowCluster(cfg, After(cfg, EMPTY, es));
  }

  // ---------------------------------------------------------------- placement

  /** The id is in the list at `k` exactly once and in no other list. */
  ghost predicate OnlyAt(s: State, id: JobId, k: Key) {
    forall k' :: Occurs(s.lists, k', id) == if k' == k then 1 else 0
  }

  ghost predicate Nowhere(s: State, id: JobId) {
    forall k :: Occurs(s.lists, k, id) == 0
  }

  /** Placement: a live job is exactly where its status says. A running job without a worker waits on its child. */
  lemma PlacementHolds(cfg: Config, es: seq<Event>, id: JobId)
    requires cfg.Valid() && Disciplined(cfg, EMPTY, es)
    requires id in After(cfg, EMPTY, es).jobs
    ensures var s := After(cfg, EMPTY, es);
            var j := s.jobs[id];
            match j.status
            case Queued => OnlyAt(s, id, Pending(j.cls, j.priority))
            case Admitted => j.target.Some? && OnlyAt(s, id, Dispatch(PoolFor(j.cls), j.target.value))
            case Running => if j.worker.Some? then OnlyAt(s, id, Processing(j.worker.value)) else Nowhere(s, id)
            case _ => Nowhere(s, id) || exists k :: OnlyAt(s, id, k)
  {
    InitialInv(cfg);
    RunKeeps(cfg, EMPTY, es);
    var s := After(cfg, EMPTY, es);
    assert JobOk(cfg, s, id);
    var home := Home(s.jobs[id]);
    if s.jobs[id].status.Terminal() && Occurs(s.lists, home, id) == 1 {
      assert OnlyAt(s, id, home);
    }
  }

  // ---------------------------------------------------------------- exactly when an ending is sound

  /** Ending a job that stays listed takes its share off the counters but not off the sums. */
  lemma EndingListedBreaks(cfg: Config, s: State, id: JobId, j: Job, worker: Option<WorkerId>)
    requires Inv(cfg, s) && id in s.jobs && Held(s, id)
    requires SameSeat(j, s.jobs[id]) && j.child == s.jobs[id].child
    requires Occurs(DropProcessing(s.lists, Either(worker, j.worker), id), Home(j), id) > 0
    ensures !Balanced(Finish(s, id, j, worker))
  {
    hide WithinCapacity, Bounded, Total, Release;
    var s' := Finish(s, id, j, worker);
    var t := j.target.value;
    assert JobOk(cfg, s, id);
    HeldIsCovered(s, id);
    ReleaseSubtracts(s.counters, j);
    assert CounterAt(s'.counters, t, ActiveJobs) == CounterAt(s.counters, t, ActiveJobs) - 1;
    if Balanced(s') {
      ActiveCounts(s.jobs, Holders(s, t));
      ActiveCounts(s'.jobs, Holders(s', t));
      StillHolding(s, id, j, worker, t);
      assert false;
    }
  }

  lemma StillHeld(s: State, id: JobId, j: Job, worker: Option<WorkerId>, x: JobId)
    requires id in s.jobs && SameSeat(j, s.jobs[id])
    requires Occurs(DropProcessing(s.lists, Either(worker, j.worker), id), Home(j), id) > 0
    requires x in s.jobs && Held(s, x)
    ensures var s' := Finish(s, id, j, worker);
            x in s'.jobs && Held(s', x) && s'.jobs[x].target == s.jobs[x].target
  {
    hide Release, LRem, Synthesize;
    SeatAfterFinish(s, id, j, worker, x);
    if Either(worker, j.worker).Some? {
      RemoveOneOccurs(s.lists, Processing(Either(worker, j.worker).value), id);
    }
  }

  lemma SeatAfterFinish(s: State, id: JobId, j: Job, worker: Option<WorkerId>, x: JobId)
    requires id in s.jobs && SameSeat(j, s.jobs[id]) && x in s.jobs
    ensures var after := Finish(s, id, j, worker).jobs;
            x in after && SameSeat(s.jobs[x], after[x])
  {
    hide Release, DropProcessing;
  }

  lemma StillHolding(s: State, id: JobId, j: Job, worker: Option<WorkerId>, t: TargetId)
    requires id in s.jobs && SameSeat(j, s.jobs[id])
    requires Occurs(DropProcessing(s.lists, Either(worker, j.worker), id), Home(j), id) > 0
    ensures |Holders(s, t)| <= |Holders(Finish(s, id, j, worker), t)|
  {
    hide Finish, Occurs;
    var s' := Finish(s, id, j, worker);
    forall x | x in Holders(s, t)
      ensures x in Holders(s', t)
    {
      StillHeld(s, id, j, worker, x);
    }
    SubsetCard(Holders(s, t), Holders(s', t));
  }

  lemma SubsetCard<T>(a: set<T>, b: set<T>)
    requires a <= b
    ensures |a| <= |b|
  {
    assert b == a + (b - a);
  }

  /**
    When a worker may end a job: the job is in its processing list, or it holds nothing and its
    record names no target, or one where nobody holds anything.
  */
  ghost predicate MayEnd(s: State, id: JobId, w: WorkerId)
    requires id in s.jobs
  {
    || Working(s, id, w)
    || (!Held(s, id) && (s.jobs[id].target.None? || Holders(s, s.jobs[id].target.value) == {}))
  }

  /** Exactly when ending a job, live or ended, is sound. */
  lemma EndExact(cfg: Config, s: State, id: JobId, j: Job, w: WorkerId)
    requires Inv(cfg, s) && id in s.jobs
    requires SameSeat(j, s.jobs[id]) && j.child == s.jobs[id].child && j.status.Terminal()
    ensures Inv(cfg, Finish(s, id, j, Some(w))) <==> MayEnd(s, id, w)
  {
    hide Balanced, WithinCapacity, Total, PendingIn, BaseSum, Holders, HeldSet, Release, Finish;
    assert JobOk(cfg, s, id);
    if Working(s, id, w) {
      WorkerEndsOk(cfg, s, id, j, w);
    } else if Held(s, id) {
      RemoveOneOccurs(s.lists, Processing(w), id);
      EndingListedBreaks(cfg, s, id, j, Some(w));
    } else if MayEnd(s, id, w) {
      EndUnheldOk(cfg, s, id, j, w);
    } else {
      EndingTwiceBreaks(cfg, s, id, j, w);
    }
  }

  /** What ending a job that is in no dispatch or processing list changes. */
  lemma EndUnheldFrame(cfg: Config, s: State, id: JobId, j: Job, w: WorkerId)
    requires Inv(cfg, s) && id in s.jobs && !Held(s, id)
    requires SameSeat(j, s.jobs[id]) && j.child == s.jobs[id].child && j.status.Terminal()
    ensures var s' := Finish(s, id, j, Some(w));
            && Frame(s, s', id) && JobOk(cfg, s', id) && !Held(s', id)
            && PendingTotal(s'.lists) <= PendingTotal(s.lists)
            && s'.counters == Release(s.counters, j) && id !in s'.active
  {
    hide Balanced, WithinCapacity, Release, RemoveOne, Bounded, NoStrays, PendingTotal, Occurs, Frame, Inv;
    UnheldLists(cfg, s, id, w);
    Roots(cfg, s, id);
    FinishFrame(s, s, id, j, Some(w));
    EndedJobOk(cfg, s, id, j, w);
  }

  lemma Roots(cfg: Config, s: State, id: JobId)
    requires Inv(cfg, s) && id in s.jobs
    ensures JobOk(cfg, s, id)
    ensures s.jobs[id].root.Some? ==> id == ChildOf(s.jobs[id].root.value) && s.jobs[id].root.value.Fresh?
    ensures id.ChildOf? ==>
              s.jobs[id].root == Some(id.parent) && id.parent in s.jobs && s.jobs[id.parent].kind == ParseJob
  {
    assert JobOk(cfg, s, id);
    if id.ChildOf? {
      assert JobOk(cfg, s, id.parent);
    }
  }

  lemma UnheldLists(cfg: Config, s: State, id: JobId, w: WorkerId)
    requires Inv(cfg, s) && id in s.jobs && !Held(s, id)
    ensures var lists := RemoveOne(s.lists, Processing(w), id);
            && (forall k, x :: Occurs(lists, k, x) == Occurs(s.lists, k, x))
            && PendingTotal(lists) <= PendingTotal(s.lists)
  {
    assert JobOk(cfg, s, id);
    RemoveOneOccurs(s.lists, Processing(w), id);
    RemoveUnloads(s.lists, Processing(w), id);
  }

  lemma EndedJobOk(cfg: Config, s: State, id: JobId, j: Job, w: WorkerId)
    requires id in s.jobs && JobOk(cfg, s, id) && !Held(s, id)
    requires SameSeat(j, s.jobs[id]) && j.child == s.jobs[id].child && j.status.Terminal()
    requires s.jobs[id].root.Some? ==> id == ChildOf(s.jobs[id].root.value)
    requires forall k, x :: Occurs(RemoveOne(s.lists, Processing(w), id), k, x) == Occurs(s.lists, k, x)
    ensures JobOk(cfg, Finish(s, id, j, Some(w)), id) && !Held(Finish(s, id, j, Some(w)), id)
  {
    hide Release, RemoveOne, Occurs;
  }

  /** A target nobody holds has only zero counters, and a release there changes none. */
  lemma ReleaseNothing(c: Counters, j: Job)
    requires j.target.Some? && j.model != "" && forall f :: CounterAt(c, j.target.value, f) == 0
    ensures forall t, f :: CounterAt(Release(c, j), t, f) == CounterAt(c, t, f)
  {
    var home := j.target.value;
    var d := Subtract(c, home, j);
    forall t, f
      ensures CounterAt(Release(c, j), t, f) == CounterAt(c, t, f)
    {
      hide Subtract;
      SubtractElsewhere(c, home, j, t, f);
      assert CounterAt(ClampUsage(d, home), t, f)
          == if t == home && !f.ModelRef? then Max(0, CounterAt(d, t, f)) else CounterAt(d, t, f);
    }
  }

  lemma SubtractElsewhere(c: Counters, home: TargetId, j: Job, t: TargetId, f: Field)
    requires j.model != ""
    ensures t != home ==> CounterAt(Subtract(c, home, j), t, f) == CounterAt(c, t, f)
    ensures CounterAt(Subtract(c, home, j), home, f) == CounterAt(c, home, f) - Weight(f, j)
  {
  }

  /** Without a reservation to return, ending is sound where the release has nothing to take. */
  lemma EndUnheldOk(cfg: Config, s: State, id: JobId, j: Job, w: WorkerId)
    requires Inv(cfg, s) && id in s.jobs && !Held(s, id) && MayEnd(s, id, w)
    requires SameSeat(j, s.jobs[id]) && j.child == s.jobs[id].child && j.status.Terminal()
    ensures Inv(cfg, Finish(s, id, j, Some(w)))
  {
    hide WithinCapacity, Total, PendingIn, BaseSum, HeldSet, Release, Finish, Bounded, Frame;
    var s' := Finish(s, id, j, Some(w));
    assert JobOk(cfg, s, id);
    EndUnheldFrame(cfg, s, id, j, w);
    if j.target.None? {
      LeaveOk(cfg, s, s', id, j);
    } else {
      var t := j.target.value;
      assert Holders(s, t) == {} by { WorkingHeld(s, id, w); }
      assert forall f :: CounterAt(s.counters, t, f) == 0 by { NothingTotal(s.jobs); }
      ReleaseNothing(s.counters, j);
      GoneOk(cfg, s, s', id);
    }
  }

  lemma WorkingHeld(s: State, id: JobId, w: WorkerId)
    requires id in s.jobs && Seated(s, id)
    ensures Working(s, id, w) ==> Held(s, id)
  {
    assert Working(s, id, w) ==> Occurs(s.lists, Processing(w), id) > 0;
  }

  lemma NothingTotal(jobs: map<JobId, Job>)
    ensures forall f :: Total(jobs, {}, f) == 0
  {
  }

  /** Ending a job again takes its old share off the counters of a target that others hold. */
  lemma EndingTwiceBreaks(cfg: Config, s: State, id: JobId, j: Job, w: WorkerId)
    requires Inv(cfg, s) && id in s.jobs && !Held(s, id) && !MayEnd(s, id, w)
    requires SameSeat(j, s.jobs[id]) && j.child == s.jobs[id].child && j.status.Terminal()
    ensures !Balanced(Finish(s, id, j, Some(w)))
  {
    hide WithinCapacity, Total, Release, Finish, Bounded;
    var s' := Finish(s, id, j, Some(w));
    var t := j.target.value;
    EndUnheldFrame(cfg, s, id, j, w);
    OtherHoldersKept(s, s', id, t);
    assert Holders(s', t) == Holders(s, t) by { SetFromRest(Holders(s', t), Holders(s, t), id); }
    ActiveCounts(s.jobs, Holders(s, t));
    ActiveCounts(s'.jobs, Holders(s', t));
    ReleaseTakesOne(s.counters, j);
  }

  lemma ReleaseTakesOne(c: Counters, j: Job)
    requires j.target.Some? && CounterAt(c, j.target.value, ActiveJobs) > 0
    ensures CounterAt(Release(c, j), j.target.value, ActiveJobs) == CounterAt(c, j.target.value, ActiveJobs) - 1
  {
  }

  /**
    Exactly when completing or failing a job is sound, whatever its status: neither call checks
    who calls it or whether the job has already ended.
  */
  lemma CompletionExact(cfg: Config, s: State, id: JobId, text: string, w: WorkerId)
    requires Inv(cfg, s) && id in s.jobs
    ensures Inv(cfg, MarkCompleted(s, id, text, Some(w))) <==> MayEnd(s, id, w)
    ensures Inv(cfg, MarkFailed(s, id, text, Some(w))) <==> MayEnd(s, id, w)
  {
    hide Inv, Finish, MayEnd;
    EndExact(cfg, s, id, s.jobs[id].(status := Completed, result := Some(text)), w);
    EndExact(cfg, s, id, s.jobs[id].(status := Failed, error := Some(text)), w);
  }

  /** For a live job this is: it holds nothing, or it is in that worker's list. */
  lemma MayEndLive(cfg: Config, s: State, id: JobId, w: WorkerId)
    requires Inv(cfg, s) && id in s.jobs && !s.jobs[id].status.Terminal()
    ensures MayEnd(s, id, w) <==> !Held(s, id) || Working(s, id, w)
  {
    assert JobOk(cfg, s, id);
  }

  /**
    Exactly when the reaper is sound on a live indexed job: it is not in the branch that fails or
    re-queues a job that is still admitted. That branch leaves the id in the dispatch list.
  */
  lemma ReapExact(cfg: Config, s: State, id: JobId, gpuWorkers: bool, now: int)
    requires Inv(cfg, s) && id in s.active && id in s.jobs
    ensures Inv(cfg, Reap(cfg, s, id, gpuWorkers, now))
            <==> !(s.jobs[id].status == Admitted && Acts(ReapBranch(cfg, s, id, now)))
  {
    hide Balanced, WithinCapacity, Total, PendingIn, BaseSum, Holders, HeldSet, Release, Finish;
    var j := s.jobs[id];
    var b := ReapBranch(cfg, s, id, now);
    assert JobOk(cfg, s, id);
    if j.status != Admitted || !Acts(b) {
      ReapOk(cfg, s, id, gpuWorkers, now);
    } else if b == FailDeadline {
      EndingListedBreaks(cfg, s, id, j.(status := Failed, error := Some(DEADLINE_EXCEEDED_ERROR)), None);
    } else if b == FailRetries {
      EndingListedBreaks(cfg, s, id,
                         j.(retryCount := j.retryCount + 1).(status := Failed, error := Some(GENERIC_CHAT_ERROR)),
                         None);
    } else if b == Retry {
      ReapAdmittedDoubles(cfg, s, id, gpuWorkers, now);
      assert !Inv(cfg, Reap(cfg, s, id, gpuWorkers, now));
    }
  }

  /** Re-queueing an admitted job leaves its id both in the dispatch and in the pending list. */
  lemma ReapAdmittedDoubles(cfg: Config, s: State, id: JobId, gpuWorkers: bool, now: int)
    requires Inv(cfg, s) && id in s.jobs && s.jobs[id].status == Admitted && ReapBranch(cfg, s, id, now) == Retry
    ensures var s' := Reap(cfg, s, id, gpuWorkers, now);
            var j := s.jobs[id];
            && id in s'.jobs && s'.jobs[id].status == Queued && j.target.Some?
            && Occurs(s'.lists, Dispatch(PoolFor(j.cls), j.target.value), id) == 1
            && Occurs(s'.lists, Pending(j.cls, j.priority), id) == 1
            && !JobOk(cfg, s', id)
  {
    hide Balanced, WithinCapacity, Release;
    assert JobOk(cfg, s, id);
    var j := s.jobs[id];
    RPushOccurs(s.lists, Pending(j.cls, j.priority), id);
    var s' := Reap(cfg, s, id, gpuWorkers, now);
    assert Home(s'.jobs[id]) == Pending(j.cls, j.priority);
  }

  // ---------------------------------------------------------------- bounded recovery

  /** A run event that puts a job back in the queue because its lease ran out. */
  ghost predicate RetriesJob(cfg: Config, s: State, e: Event, id: JobId) {
    e.ReapJob? && e.id == id && ReapBranch(cfg, s, id, e.now) == Retry
  }

  ghost function RetriesIn(cfg: Config, s: State, es: seq<Event>, id: JobId): nat
    requires cfg.Valid()
    decreases |es|
  {
    if es == [] then 0
    else (if RetriesJob(cfg, s, es[0], id) then 1 else 0) + RetriesIn(cfg, Next(cfg, s, es[0]), es[1..], id)
  }

  /** The two records stand for the same request: everything but where the job is and how far it got. */
  predicate SameRequest(a: Job, b: Job) {
    && a.user == b.user && a.kind == b.kind && a.cls == b.cls && a.priority == b.priority
    && a.model == b.model && a.demand == b.demand && a.deadline == b.deadline
    && a.maxRetries == b.maxRetries && a.root == b.root
  }

  /** What a step carries along: the request, a cancellation once asked for; and the retry count. */
  ghost predicate SameRetries(s: State, s': State, x: JobId, raised: nat) {
    && x in s.jobs && x in s'.jobs
    && SameRequest(s.jobs[x], s'.jobs[x])
    && (s.jobs[x].cancelRequested ==> s'.jobs[x].cancelRequested)
    && s'.jobs[x].retryCount == s.jobs[x].retryCount + raised
  }

  lemma FinishRetries(s: State, id: JobId, j: Job, worker: Option<WorkerId>, x: JobId)
    requires id in s.jobs && x in s.jobs
    requires SameRequest(s.jobs[id], j) && j.retryCount >= s.jobs[id].retryCount
    requires j.cancelRequested == s.jobs[id].cancelRequested
    ensures SameRetries(s, Finish(s, id, j, worker), x, if x == id then j.retryCount - s.jobs[id].retryCount else 0)
  {
    hide Release, DropProcessing;
  }

  lemma EndRetries(s: State, id: JobId, worker: Option<WorkerId>, x: JobId)
    requires x in s.jobs
    ensures SameRetries(s, MarkCancelled(s, id, worker), x, 0)
  {
    hide Finish;
    if id in s.jobs && !s.jobs[id].status.Terminal() {
      FinishRetries(s, id, s.jobs[id].(status := Cancelled), worker, x);
    }
  }

  lemma CancelRetries(s: State, id: JobId, user: string, x: JobId)
    requires x in s.jobs
    ensures SameRetries(s, Cancel(s, id, user), x, 0)
  {
    hide MarkCancelled, RemoveOne, SameRetries;
    KeptRetries(s, s, x);
    if id in s.jobs {
      var j := s.jobs[id];
      FlagRetries(s, id, x);
      DropRetries(s, RemoveOne(s.lists, Pending(j.cls, j.priority), id), id, None, x);
      if j.target.Some? {
        DropRetries(s, RemoveOne(s.lists, Dispatch(PoolFor(j.cls), j.target.value), id), id, None, x);
      }
      if Propagates(s, j) {
        var c := s.jobs[j.child.value];
        FlagRetries(s, j.child.value, x);
        DropRetries(s, RemoveOne(s.lists, Pending(c.cls, c.priority), j.child.value), j.child.value, None, x);
        if c.target.Some? {
          DropRetries(s, RemoveOne(s.lists, Dispatch(PoolFor(c.cls), c.target.value), j.child.value),
                      j.child.value, None, x);
        }
      }
    }
  }

  lemma FlagRetries(s: State, id: JobId, x: JobId)
    requires id in s.jobs && x in s.jobs
    ensures SameRetries(s, RequestCancel(s, id), x, 0)
  {
  }

  lemma ClaimRetries(cfg: Config, s: State, w: WorkerId, pool: Pool, t: TargetId, kind: Option<TargetKind>,
                     gpuWorkers: bool, now: int, x: JobId)
    requires x in s.jobs
    ensures SameRetries(s, Claim(cfg, s, w, pool, t, kind, gpuWorkers, now), x, 0)
  {
    hide Finish, Release, RemoveOne, PopToProcessing;
    if Claimable(s, pool, t).Some? && Claimable(s, pool, t).value in s.jobs {
      var id := Claimable(s, pool, t).value;
      var s1 := s.(lists := PopToProcessing(s.lists, Dispatch(pool, t), Processing(w)));
      FinishRetries(s1, id, s.jobs[id].(status := Failed, error := Some(DEADLINE_EXCEEDED_ERROR)), Some(w), x);
    }
  }

  lemma ReapRetries(cfg: Config, s: State, id: JobId, gpuWorkers: bool, now: int, x: JobId)
    requires x in s.jobs
    ensures SameRetries(s, Reap(cfg, s, id, gpuWorkers, now), x,
                        if id == x && ReapBranch(cfg, s, id, now) in {Retry, FailRetries} then 1 else 0)
  {
    hide Finish, Release, RemoveOne, MarkCancelled, DropProcessing, SameRetries;
    KeptRetries(s, s.(active := s.active - {id}), x);
    KeptRetries(s, s, x);
    if ReapBranch(cfg, s, id, now) !in {Forget, Keep} {
      var j := s.jobs[id];
      match ReapBranch(cfg, s, id, now)
      case FailDeadline =>
        FinishRetries(s, id, j.(status := Failed, error := Some(DEADLINE_EXCEEDED_ERROR)), j.worker, x);
      case FailRetries =>
        FinishRetries(s, id, j.(retryCount := j.retryCount + 1).(status := Failed, error := Some(GENERIC_CHAT_ERROR)),
                      j.worker, x);
      case DropCancelled =>
        EndRetries(s, id, j.worker, x);
        if j.target.Some? {
          DropRetries(s, RemoveOne(s.lists, Dispatch(PoolFor(j.cls), j.target.value), id), id, j.worker, x);
        }
      case _ => RetryRetries(cfg, s, id, gpuWorkers, now, x);
    }
  }

  lemma KeptRetries(s: State, s': State, x: JobId)
    requires x in s.jobs && s'.jobs == s.jobs
    ensures SameRetries(s, s', x, 0)
  {
  }

  lemma DropRetries(s: State, lists: map<Key, seq<JobId>>, id: JobId, worker: Option<WorkerId>, x: JobId)
    requires x in s.jobs
    ensures SameRetries(s, MarkCancelled(s.(lists := lists), id, worker), x, 0)
  {
    hide MarkCancelled;
    EndRetries(s.(lists := lists), id, worker, x);
  }

  lemma RetryRetries(cfg: Config, s: State, id: JobId, gpuWorkers: bool, now: int, x: JobId)
    requires x in s.jobs && ReapBranch(cfg, s, id, now) == Retry
    ensures SameRetries(s, Reap(cfg, s, id, gpuWorkers, now), x, if id == x then 1 else 0)
  {
    hide Release, DropProcessing, RPush;
  }

  lemma AdmitRetries(cfg: Config, s: State, id: JobId, queue: Key, t: TargetId, r: Report, gpuWorkers: bool, now: int,
      x: JobId)
    requires cfg.Valid() && t in cfg.targets && x in s.jobs
    ensures SameRetries(s, TryAdmit(cfg, s, id, queue, t, r, gpuWorkers, now), x, 0)
  {
    hide Evaluate, Reserve, RPush, RemoveOne;
  }

  lemma CreateRetries(cfg: Config, s: State, id: JobId, req: Request, saved: bool, x: JobId)
    requires x in s.jobs
    ensures SameRetries(s, CreateChild(cfg, s, id, req, saved), x, 0)
  {
    hide RPush, PendingTotal, QueueLimit;
  }

  /** Only the reaper raises the retry count, by one each time it acts, and no call changes the bound. */
  lemma StepRetries(cfg: Config, s: State, e: Event, id: JobId)
    requires cfg.Valid() && id in s.jobs
    ensures SameRetries(s, Next(cfg, s, e), id,
                        if e.ReapJob? && e.id == id && ReapBranch(cfg, s, id, e.now) in {Retry, FailRetries}
                        then 1 else 0)
  {
    hide Finish, Cancel, Claim, Reap, MarkCancelled, TryAdmit, CreateChild, Release, PendingTotal, QueueLimit,
        DropProcessing;
    match e
    case TryAdmitJob(x, queue, t, r, gpu, now) =>
      if t in cfg.targets {
        AdmitRetries(cfg, s, x, queue, t, r, gpu, now, id);
      }
    case CreateChildJob(x, req, saved, w) => CreateRetries(cfg, s, x, req, saved, id);
    case CancelJob(x, user) => CancelRetries(s, x, user, id);
    case ClaimJob(w, pool, t, kind, gpu, now) => ClaimRetries(cfg, s, w, pool, t, kind, gpu, now, id);
    case ReapJob(x, gpu, now) => ReapRetries(cfg, s, x, gpu, now, id);
    case CompleteJob(x, text, w) =>
      if x in s.jobs {
        FinishRetries(s, x, s.jobs[x].(status := Completed, result := Some(text)), Some(w), id);
      }
    case FailJob(x, error, w) =>
      if x in s.jobs {
        FinishRetries(s, x, s.jobs[x].(status := Failed, error := Some(error)), Some(w), id);
      }
    case DropJob(x, w) => EndRetries(s, x, Some(w), id);
    case _ =>
  }

  /** The retry count never passes the bound while the job is live. */
  lemma {:induction false} BoundedRecovery(cfg: Config, s: State, es: seq<Event>, id: JobId)
    requires cfg.Valid() && id in s.jobs
    ensures s.jobs[id].retryCount + RetriesIn(cfg, s, es, id)
            <= Max(s.jobs[id].retryCount, RetryBound(cfg, s.jobs[id]))
    decreases |es|
  {
    hide Next;
    if es != [] {
      StepRetries(cfg, s, es[0], id);
      BoundedRecovery(cfg, Next(cfg, s, es[0]), es[1..], id);
    }
  }

  /** Every expiry the reaper acts on ends the job or brings it one step closer to its bound. */
  lemma ExpiryProgress(cfg: Config, s: State, id: JobId, gpuWorkers: bool, now: int)
    requires cfg.Valid() && ReapBranch(cfg, s, id, now) !in {Forget, Keep}
    ensures var s' := Reap(cfg, s, id, gpuWorkers, now);
            || s'.jobs[id].status.Terminal()
            || (&& RetryBound(cfg, s'.jobs[id]) == RetryBound(cfg, s.jobs[id])
                && 0 <= RetryBound(cfg, s'.jobs[id]) + 1 - s'.jobs[id].retryCount
                      < RetryBound(cfg, s.jobs[id]) + 1 - s.jobs[id].retryCount)
  {
    hide Release;
  }
}
