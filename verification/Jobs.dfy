/**
  The records of the LLM control plane: job documents, the queue keys, the per-target
  usage hash and the configuration that admission reads.
*/
module Jobs {
  import opened Common
  import opened RedisLists

  /** A random id, or the id derived from a parser root (`derived_child_job_id`). */
  datatype JobId = Fresh(n: nat) | ChildOf(parent: JobId)

  type TargetId = string
  type WorkerId = string
  type Model = string

  datatype Status = Queued | Admitted | Running | Completed | Failed | Cancelled
  {
    predicate Terminal() { Completed? || Failed? || Cancelled? }
  }

  datatype Workload = Chat | Siem | Batch | Parse
  datatype Priority = P0 | P1 | P2 | P3
  datatype JobKind = ChatJob | FileChatJob | ParseJob
  datatype TargetKind = Gpu | Cpu
  datatype Stage = NoStage | ChildEnqueued | ChildCompleted | ChildFailed | ChildCancelled

  /** `worker_pool_for_workload`: parser work has its own pool, every other class is its pool. */
  datatype Pool = ParserPool | ClassPool(cls: Workload)

  function PoolFor(cls: Workload): Pool {
    if cls == Parse then ParserPool else ClassPool(cls)
  }

  datatype Key =
    | Pending(cls: Workload, priority: Priority)
    | Dispatch(pool: Pool, target: TargetId)
    | Processing(worker: WorkerId)

  const QUEUE_ORDER: seq<Key> :=
    [Pending(Siem, P0), Pending(Chat, P1), Pending(Parse, P1), Pending(Siem, P2), Pending(Batch, P3)]

  function DefaultPriority(cls: Workload): Priority {
    match cls
    case Chat => P1
    case Parse => P1
    case Siem => P2
    case Batch => P3
  }

  function NormalizePriority(cls: Workload, requested: Option<Priority>): Priority {
    match requested
    case Some(p) => p
    case None => DefaultPriority(cls)
  }

  /** What a job asks of a target: the model file and the token counts. */
  datatype Demand = Demand(sizeBytes: nat, promptTokens: nat, contextTokens: nat, maxOutputTokens: nat)

  datatype Job = Job(
    user: string,
    kind: JobKind,
    cls: Workload,
    priority: Priority,
    targetKind: TargetKind,
    model: Model,
    demand: Demand,
    status: Status,
    deadline: int,            // 0 stands for no deadline
    retryCount: nat,
    maxRetries: int,
    cancelRequested: bool,
    result: Option<string>,
    error: Option<string>,
    target: Option<TargetId>,
    worker: Option<WorkerId>,
    lease: int,               // 0 stands for no lease
    tokens: nat,              // reserved_tokens
    vram: nat,                // reserved_vram_mb
    ram: nat,                 // reserved_ram_mb
    root: Option<JobId>,
    child: Option<JobId>,
    stage: Stage)

  /** The fields of a target's usage hash, and of its model reference hash. */
  datatype Field = Tokens | TokensOf(cls: Workload) | Vram | Ram | ActiveJobs | ModelRef(model: Model)

  /** What one job adds to a field while it holds its reservation. */
  function Weight(f: Field, j: Job): nat {
    match f
    case Tokens => j.tokens
    case TokensOf(c) => if j.cls == c then j.tokens else 0
    case Vram => j.vram
    case Ram => j.ram
    case ActiveJobs => 1
    case ModelRef(m) => if j.model == m then 1 else 0
  }

  /** The parts of Redis the control plane lives in; a missing list is empty, a missing counter 0. */
  datatype State = State(
    jobs: map<JobId, Job>,
    lists: map<Key, seq<JobId>>,
    counters: map<(TargetId, Field), int>,
    active: map<JobId, int>)   // llm:jobs:active, scored by lease expiry

  const EMPTY := State(map[], map[], map[], map[])

  function ListAt(lists: map<Key, seq<JobId>>, k: Key): seq<JobId> {
    if k in lists then lists[k] else []
  }

  function CounterAt(c: map<(TargetId, Field), int>, t: TargetId, f: Field): int {
    if (t, f) in c then c[(t, f)] else 0
  }

  /** How often an id occurs in the list at a key. */
  ghost function Occurs(lists: map<Key, seq<JobId>>, k: Key, id: JobId): nat {
    multiset(ListAt(lists, k))[id]
  }

  function RPush(lists: map<Key, seq<JobId>>, k: Key, id: JobId): map<Key, seq<JobId>> {
    lists[k := ListAt(lists, k) + [id]]
  }

  function RemoveOne(lists: map<Key, seq<JobId>>, k: Key, id: JobId): map<Key, seq<JobId>> {
    lists[k := LRem(ListAt(lists, k), id)]
  }

  lemma RPushOccurs(lists: map<Key, seq<JobId>>, k: Key, id: JobId)
    ensures forall k', x {:trigger Occurs(RPush(lists, k, id), k', x)} ::
              Occurs(RPush(lists, k, id), k', x) == Occurs(lists, k', x) + (if k' == k && x == id then 1 else 0)
  {
  }

  lemma RemoveOneOccurs(lists: map<Key, seq<JobId>>, k: Key, id: JobId)
    ensures forall k', x {:trigger Occurs(RemoveOne(lists, k, id), k', x)} ::
              Occurs(RemoveOne(lists, k, id), k', x)
              == if k' == k && x == id && Occurs(lists, k, id) > 0 then Occurs(lists, k', x) - 1
                  else Occurs(lists, k', x)
  {
    LRemCounts(ListAt(lists, k), id);
  }

  /** A target as the scheduler is configured to see it. */
  datatype Target = Target(kind: TargetKind, baseTokens: int)

  /** Settings; ratios and multipliers are fractions num/den. */
  datatype Config = Config(
    targets: map<TargetId, Target>,
    workerCount: nat,
    granularityMb: nat,
    kvMbPer1k: nat,
    gpuOverheadMb: nat, cpuOverheadMb: nat,
    gpuWeightNum: nat, gpuWeightDen: nat,
    cpuWeightNum: nat, cpuWeightDen: nat,
    chatRatioNum: nat, chatRatioDen: nat,
    siemRatioNum: nat, siemRatioDen: nat,
    gpuMarginMb: nat, ramMarginMb: nat,
    leaseSeconds: nat, deadlineSeconds: nat,
    maxJobRetries: int,
    queueFactor: nat, minQueueDepth: nat, workerWeight: nat)
  {
    /** Denominators are positive and the SIEM share is below one. */
    predicate Valid() {
      && gpuWeightDen > 0 && cpuWeightDen > 0
      && chatRatioDen > 0
      && siemRatioNum < siemRatioDen
    }

    /** `max(granularity, 1)`. */
    function Granule(): (g: nat)
      ensures g >= 1
    {
      if granularityMb >= 1 then granularityMb else 1
    }
  }

  /** `max(1, base_capacity_tokens)`. */
  function BaseTokens(t: Target): (b: nat)
    ensures b >= 1 && b >= t.baseTokens
  {
    if t.baseTokens >= 1 then t.baseTokens else 1
  }
}
