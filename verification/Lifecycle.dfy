/**
  One function per gateway call: what the call leaves in the store. A call that raises or
  returns early leaves the store as the source does at that point.
*/
module Lifecycle {
  import opened Common
  import opened RedisLists
  import opened Jobs
  import opened Admission

  const GENERIC_CHAT_ERROR := "Сервис временно недоступен. Попробуйте позже."
  const DEADLINE_EXCEEDED_ERROR := "Deadline exceeded"

  // ---------------------------------------------------------------- queue gate

  function PendingIn(lists: map<Key, seq<JobId>>, keys: seq<Key>): nat {
    if keys == [] then 0 else |ListAt(lists, keys[0])| + PendingIn(lists, keys[1..])
  }

  /** `get_total_pending_jobs`. */
  function PendingTotal(lists: map<Key, seq<JobId>>): nat {
    PendingIn(lists, QUEUE_ORDER)
  }

  /** The sum of `max(1, base tokens)` over a set of targets. */
  ghost function BaseSum(targets: map<TargetId, Target>, among: set<TargetId>): nat
    requires among <= targets.Keys
  {
    if among == {} then 0
    else
      var t :| t in among;
      BaseTokens(targets[t]) + BaseSum(targets, among - {t})
  }

  ghost function ClusterTokens(cfg: Config): nat {
    BaseSum(cfg.targets, cfg.targets.Keys)
  }

  /** `_dynamic_queue_limit`. */
  ghost function QueueLimit(cfg: Config): nat {
    Max(cfg.minQueueDepth, ClusterTokens(cfg) * cfg.queueFactor + cfg.workerCount * cfg.workerWeight)
  }

  // ---------------------------------------------------------------- enqueue

  datatype Request = Request(
    user: string, kind: JobKind, cls: Workload, priority: Option<Priority>, targetKind: TargetKind,
    model: Model,
    sizeBytes: Option<nat>,      // the catalogue entry for the model, if there is one
    promptTokens: nat, contextTokens: nat, maxOutputTokens: nat,
    now: int)

  function NewJob(cfg: Config, req: Request, size: nat, root: Option<JobId>): Job {
    Job(req.user, req.kind, req.cls, NormalizePriority(req.cls, req.priority), req.targetKind, req.model,
        Demand(size, req.promptTokens, req.contextTokens, req.maxOutputTokens),
        Queued, req.now + cfg.deadlineSeconds, 0, cfg.maxJobRetries, false, None, None,
        None, None, 0, 0, 0, 0, root, None, NoStage)
  }

  /** Whether `enqueue_job` writes a new job: the queue is not saturated and the model is known. */
  ghost predicate Enqueues(cfg: Config, s: State, id: JobId, req: Request) {
    && id !in s.jobs
    && PendingTotal(s.lists) < QueueLimit(cfg)
    && req.sizeBytes.Some?
  }

  ghost function Enqueue(cfg: Config, s: State, id: JobId, req: Request, root: Option<JobId>): State {
    if !Enqueues(cfg, s, id, req) then s
    else
      var j := NewJob(cfg, req, req.sizeBytes.value, root);
      s.(jobs := s.jobs[id := j], lists := RPush(s.lists, Pending(j.cls, j.priority), id))
  }

  // ---------------------------------------------------------------- capacity counters

  type Counters = map<(TargetId, Field), int>

  function HIncr(c: Counters, t: TargetId, f: Field, delta: int): Counters {
    c[(t, f) := CounterAt(c, t, f) + delta]
  }

  /** The admission pipeline. */
  function Reserve(c: Counters, t: TargetId, j: Job): Counters {
    HIncr(HIncr(HIncr(HIncr(HIncr(HIncr(c, t, Tokens, j.tokens), t, TokensOf(j.cls), j.tokens),
                                  t, Vram, j.vram), t, Ram, j.ram), t, ActiveJobs, 1), t, ModelRef(j.model), 1)
  }

  function Subtract(c: Counters, t: TargetId, j: Job): Counters {
    var d := HIncr(HIncr(HIncr(HIncr(HIncr(c, t, Tokens, 0 - j.tokens), t, TokensOf(j.cls), 0 - j.tokens),
                               t, Vram, 0 - j.vram), t, Ram, 0 - j.ram), t, ActiveJobs, -1);
    if j.model != "" then HIncr(d, t, ModelRef(j.model), -1) else d
  }

  /** The usage hash is rewritten with negative values raised to zero; model references stay. */
  function ClampUsage(c: Counters, t: TargetId): Counters {
    map k | k in c :: if k.0 == t && !k.1.ModelRef? then Max(0, c[k]) else c[k]
  }

  function DropDeadRef(c: Counters, t: TargetId, m: Model): Counters {
    if m != "" && CounterAt(c, t, ModelRef(m)) <= 0 then c - {(t, ModelRef(m))} else c
  }

  /** `_release_reserved_capacity`. */
  function Release(c: Counters, j: Job): Counters {
    match j.target
    case None => c
    case Some(t) => DropDeadRef(ClampUsage(Subtract(c, t, j), t), t, j.model)
  }

  // ---------------------------------------------------------------- finishing

  function StageFor(status: Status): Stage {
    match status
    case Completed => ChildCompleted
    case Failed => ChildFailed
    case Cancelled => ChildCancelled
    case _ => NoStage
  }

  /** What a root record becomes when its child `id` ends as `j`. */
  function RootAfter(r: Job, id: JobId, j: Job): Job {
    var base := r.(status := j.status, child := Some(id), stage := StageFor(j.status));
    match j.status
    case Completed => base.(result := j.result, error := None)
    case Failed =>
      var text := if j.error.Some? && j.error.value != "" then j.error.value else GENERIC_CHAT_ERROR;
      base.(result := None, error := Some(text))
    case Cancelled => base.(result := None, error := None)
    case _ => base
  }

  predicate Synthesizes(jobs: map<JobId, Job>, id: JobId, j: Job) {
    && j.root.Some? && j.root.value != id
    && j.root.value in jobs && !jobs[j.root.value].status.Terminal()
  }

  /** `_synthesize_root_terminal_state`. */
  function Synthesize(jobs: map<JobId, Job>, id: JobId, j: Job): map<JobId, Job> {
    if Synthesizes(jobs, id, j) then jobs[j.root.value := RootAfter(jobs[j.root.value], id, j)] else jobs
  }

  function Either(worker: Option<WorkerId>, other: Option<WorkerId>): Option<WorkerId> {
    if worker.Some? then worker else other
  }

  function DropProcessing(lists: map<Key, seq<JobId>>, worker: Option<WorkerId>, id: JobId): map<Key, seq<JobId>> {
    match worker
    case None => lists
    case Some(w) => RemoveOne(lists, Processing(w), id)
  }

  /** The common tail of the three terminal calls: save, mirror to the root, release, unlist. */
  function Finish(s: State, id: JobId, j: Job, worker: Option<WorkerId>): State {
    State(Synthesize(s.jobs[id := j], id, j),
          DropProcessing(s.lists, Either(worker, j.worker), id),
          Release(s.counters, j),
          s.active - {id})
  }

  function MarkCompleted(s: State, id: JobId, text: string, worker: Option<WorkerId>): State {
    if id !in s.jobs then s
    else Finish(s, id, s.jobs[id].(status := Completed, result := Some(text)), worker)
  }

  /** `_mark_job_failed_from_record`: the caller's copy of the record is what is saved. */
  function FailFromRecord(s: State, id: JobId, j: Job, error: string, worker: Option<WorkerId>): State {
    Finish(s, id, j.(status := Failed, error := Some(error)), worker)
  }

  function MarkFailed(s: State, id: JobId, error: string, worker: Option<WorkerId>): State {
    if id !in s.jobs then s else FailFromRecord(s, id, s.jobs[id], error, worker)
  }

  function MarkCancelled(s: State, id: JobId, worker: Option<WorkerId>): State {
    if id !in s.jobs || s.jobs[id].status.Terminal() then s
    else Finish(s, id, s.jobs[id].(status := Cancelled), worker)
  }

  // ---------------------------------------------------------------- parser root and child

  function LinkTo(s: State, root: JobId): State
    requires root in s.jobs
  {
    s.(jobs := s.jobs[root := s.jobs[root].(child := Some(ChildOf(root)))])
  }

  /** `get_linked_child_job_id`. */
  function LinkChild(s: State, root: JobId): State {
    if root in s.jobs && s.jobs[root].child.None? && ChildOf(root) in s.jobs then LinkTo(s, root) else s
  }

  /** A child belongs to the user of its root. */
  function ChildRequest(s: State, root: JobId, req: Request): Request
    requires root in s.jobs
  {
    req.(user := s.jobs[root].user)
  }

  /**
    `enqueue_child_job_once`. With `linkSaved` false the caller dies after the child is
    written and before the root is saved.
  */
  ghost function CreateChild(cfg: Config, s: State, root: JobId, req: Request, linkSaved: bool): State {
    if root !in s.jobs || s.jobs[root].child.Some? then s
    else if s.jobs[root].status.Terminal() || s.jobs[root].cancelRequested then s
    else if ChildOf(root) in s.jobs then (if linkSaved then LinkTo(s, root) else s)
    else if req.kind != FileChatJob || !Enqueues(cfg, s, ChildOf(root), ChildRequest(s, root, req)) then s
    else
      var s' := Enqueue(cfg, s, ChildOf(root), ChildRequest(s, root, req), Some(root));
      if linkSaved then LinkTo(s', root) else s'
  }

  /** A record without target, worker, lease or reservation. */
  function Unassigned(j: Job): Job {
    j.(target := None, worker := None, lease := 0, tokens := 0, vram := 0, ram := 0)
  }

  /** `mark_job_waiting_on_child`. */
  function WaitOnChild(s: State, id: JobId, child: JobId, worker: Option<WorkerId>): State {
    if id !in s.jobs then s
    else
      var j := s.jobs[id];
      State(s.jobs[id := Unassigned(j).(child := Some(child), stage := ChildEnqueued)],
            DropProcessing(s.lists, Either(worker, j.worker), id),
            Release(s.counters, j),
            s.active - {id})
  }

  // ---------------------------------------------------------------- cancel

  function CancelQueued(s: State, id: JobId, j: Job): State {
    MarkCancelled(s.(lists := RemoveOne(s.lists, Pending(j.cls, j.priority), id)), id, None)
  }

  function CancelAdmitted(s: State, id: JobId, j: Job, t: TargetId): State {
    MarkCancelled(s.(lists := RemoveOne(s.lists, Dispatch(PoolFor(j.cls), t), id)), id, None)
  }

  function RequestCancel(s: State, id: JobId): State
    requires id in s.jobs
  {
    s.(jobs := s.jobs[id := s.jobs[id].(cancelRequested := true)])
  }

  /** Whether `_propagate_cancel_to_linked_child` deals with the cancellation. */
  predicate Propagates(s: State, j: Job) {
    && j.child.Some? && j.child.value in s.jobs
    && var c := s.jobs[j.child.value];
       !c.status.Terminal() && (c.status == Admitted ==> c.target.Some?)
  }

  /** A running child is cancelled by `cancel_job` in turn; a child has no child of its own. */
  function Propagate(s: State, j: Job): State
    requires Propagates(s, j)
  {
    var id := j.child.value;
    var c := s.jobs[id];
    match c.status
    case Queued => CancelQueued(s, id, c)
    case Admitted => CancelAdmitted(s, id, c, c.target.value)
    case _ => if c.cancelRequested then s else RequestCancel(s, id)
  }

  /** `cancel_job`; an empty user skips the ownership check. */
  function Cancel(s: State, id: JobId, user: string): State {
    if id !in s.jobs then s
    else
      var j := s.jobs[id];
      if (user != "" && j.user != user) || j.status.Terminal() || j.cancelRequested then s
      else if j.status == Queued then CancelQueued(s, id, j)
      else if j.status == Admitted && j.target.Some? then CancelAdmitted(s, id, j, j.target.value)
      else if Propagates(s, j) then Propagate(s, j)
      else RequestCancel(s, id)
  }

  // ---------------------------------------------------------------- admit, claim, renew

  function Downgrade(j: Job, gpuWorkers: bool): Job {
    if j.targetKind == Gpu && !gpuWorkers then j.(targetKind := Cpu) else j
  }

  function Decide(cfg: Config, s: State, j: Job, t: TargetId, r: Report): Decision
    requires cfg.Valid() && t in cfg.targets
  {
    Evaluate(cfg, j, cfg.targets[t], ReadUsage(s.counters, t, j.model), r)
  }

  function AdmittedRecord(cfg: Config, j: Job, t: TargetId, d: Decision, now: int): Job
    requires d.Admit?
  {
    j.(status := Admitted, target := Some(t), lease := now + cfg.leaseSeconds,
       tokens := d.tokens, vram := d.vram, ram := d.ram)
  }

  /** Whether `try_admit_job` returns true. */
  predicate Admits(cfg: Config, s: State, id: JobId, queue: Key, t: TargetId, r: Report, gpuWorkers: bool)
    requires cfg.Valid() && t in cfg.targets
  {
    && id in s.jobs && s.jobs[id].status == Queued
    && Decide(cfg, s, Downgrade(s.jobs[id], gpuWorkers), t, r).Admit?
    && id in ListAt(s.lists, queue)
  }

  /** `try_admit_job`; a downgrade to CPU is saved even when the job is then not admitted. */
  function TryAdmit(cfg: Config, s: State, id: JobId, queue: Key, t: TargetId, r: Report, gpuWorkers: bool,
      now: int): State
    requires cfg.Valid() && t in cfg.targets
  {
    if id !in s.jobs || s.jobs[id].status != Queued then s
    else
      var j := Downgrade(s.jobs[id], gpuWorkers);
      if !Admits(cfg, s, id, queue, t, r, gpuWorkers) then s.(jobs := s.jobs[id := j])
      else
        var a := AdmittedRecord(cfg, j, t, Decide(cfg, s, j, t, r), now);
        State(s.jobs[id := a],
              RPush(RemoveOne(s.lists, queue, id), Dispatch(PoolFor(j.cls), t), id),
              Reserve(s.counters, t, a),
              s.active[id := a.lease])
  }

  /** The record goes back to its pending list, at the end. */
  function Requeue(s: State, id: JobId, j: Job): State {
    s.(jobs := s.jobs[id := Unassigned(j).(status := Queued)],
       lists := RPush(s.lists, Pending(j.cls, j.priority), id))
  }

  /** BRPOPLPUSH: off the right end of the dispatch list, onto the left end of the worker's. */
  function PopToProcessing(lists: map<Key, seq<JobId>>, from: Key, to: Key): map<Key, seq<JobId>>
    requires ListAt(lists, from) != [] && from != to
  {
    var xs := ListAt(lists, from);
    lists[from := xs[..|xs| - 1]][to := [xs[|xs| - 1]] + ListAt(lists, to)]
  }

  function Claimable(s: State, pool: Pool, t: TargetId): Option<JobId> {
    var xs := ListAt(s.lists, Dispatch(pool, t));
    if xs == [] then None else Some(xs[|xs| - 1])
  }

  predicate Expired(j: Job, now: int) { j.deadline != 0 && now >= j.deadline }

  /** `claim_dispatch_job`. */
  function Claim(cfg: Config, s: State, w: WorkerId, pool: Pool, t: TargetId, kind: Option<TargetKind>,
                 gpuWorkers: bool, now: int): State
  {
    match Claimable(s, pool, t)
    case None => s
    case Some(id) =>
      var s1 := s.(lists := PopToProcessing(s.lists, Dispatch(pool, t), Processing(w)));
      if id !in s1.jobs then s1.(lists := RemoveOne(s1.lists, Processing(w), id))
      else
        var j := s1.jobs[id];
        if kind.Some? && j.targetKind != kind.value then
          var s2 := State(s1.jobs, RemoveOne(s1.lists, Processing(w), id), Release(s1.counters, j), s1.active - {id});
          Requeue(s2, id, Downgrade(j, gpuWorkers))
        else if Expired(j, now) then
          MarkFailed(s1, id, DEADLINE_EXCEEDED_ERROR, Some(w))
        else
          var r := j.(status := Running, worker := Some(w), lease := now + cfg.leaseSeconds);
          s1.(jobs := s1.jobs[id := r], active := s1.active[id := r.lease])
  }

  /** `renew_job_lease`. */
  function Renew(cfg: Config, s: State, id: JobId, now: int): State {
    if id in s.jobs && (s.jobs[id].status == Admitted || s.jobs[id].status == Running) then
      s.(jobs := s.jobs[id := s.jobs[id].(lease := now + cfg.leaseSeconds)],
         active := s.active[id := now + cfg.leaseSeconds])
    else s
  }

  // ---------------------------------------------------------------- the reaper

  /** `_cancel_stale_requested_job` applies to a child whose cancellation was asked for. */
  predicate StaleCancel(id: JobId, j: Job) {
    j.root.Some? && j.root.value != id && j.cancelRequested && (j.status == Running || j.status == Admitted)
  }

  /** A stored bound of 0 falls back to the setting. */
  function RetryBound(cfg: Config, j: Job): int {
    if j.maxRetries != 0 then j.maxRetries else cfg.maxJobRetries
  }

  datatype ReapKind = Forget | Keep | DropCancelled | FailDeadline | FailRetries | Retry

  /** Which branch of `requeue_stale_jobs` an id takes. */
  function ReapBranch(cfg: Config, s: State, id: JobId, now: int): ReapKind {
    if id !in s.jobs || s.jobs[id].status.Terminal() then Forget
    else
      var j := s.jobs[id];
      if j.lease > now then Keep
      else if StaleCancel(id, j) then DropCancelled
      else if Expired(j, now) then FailDeadline
      else if j.retryCount + 1 > RetryBound(cfg, j) then FailRetries
      else Retry
  }

  /** One turn of the loop in `requeue_stale_jobs`. */
  function Reap(cfg: Config, s: State, id: JobId, gpuWorkers: bool, now: int): State {
    match ReapBranch(cfg, s, id, now)
    case Forget => s.(active := s.active - {id})
    case Keep => s
    case DropCancelled =>
      var j := s.jobs[id];
      var s1 := if j.status == Admitted && j.target.Some?
                then s.(lists := RemoveOne(s.lists, Dispatch(PoolFor(j.cls), j.target.value), id)) else s;
      MarkCancelled(s1, id, j.worker)
    case FailDeadline => FailFromRecord(s, id, s.jobs[id], DEADLINE_EXCEEDED_ERROR, s.jobs[id].worker)
    case FailRetries =>
      var j := s.jobs[id];
      FailFromRecord(s, id, j.(retryCount := j.retryCount + 1), GENERIC_CHAT_ERROR, j.worker)
    case Retry =>
      var j := s.jobs[id];
      var s1 := State(s.jobs, DropProcessing(s.lists, j.worker, id), Release(s.counters, j), s.active - {id});
      Requeue(s1, id, Downgrade(j.(retryCount := j.retryCount + 1), gpuWorkers))
  }
}
