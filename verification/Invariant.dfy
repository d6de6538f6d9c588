/** The invariant of the control plane, and the rule by which a step on one job keeps it. */
module Invariant {
  import opened Common
  import opened RedisLists
  import opened Jobs
  import opened Admission
  import opened Lifecycle
  import opened Ledger

  // ---------------------------------------------------------------- per job

  /** An id is in no list but its home, and there exactly as its status says. */
  ghost predicate Seated(s: State, id: JobId)
    requires id in s.jobs
  {
    var j := s.jobs[id];
    var here := Occurs(s.lists, Home(j), id);
    && (forall k :: k != Home(j) ==> Occurs(s.lists, k, id) == 0)
    && here <= 1
    && (j.worker.Some? ==> j.target.Some?)
    && (j.status == Queued ==> j.target.None? && j.worker.None? && here == 1)
    && (j.status == Admitted ==> j.target.Some? && j.worker.None? && here == 1)
    && (j.status == Running ==> (j.target.Some? ==> j.worker.Some?) && here == if j.worker.Some? then 1 else 0)
  }

  /** A job is charged at least one token, and its tokens cover its memory. */
  ghost predicate Sized(cfg: Config, j: Job) {
    && j.model != ""
    && Pending(j.cls, j.priority) in QUEUE_ORDER
    && (j.target.Some? ==>
          j.target.value in cfg.targets && j.tokens >= 1 && j.vram + j.ram <= j.tokens * cfg.Granule())
  }

  /** The reaper's index holds exactly the live jobs that hold a reservation, at their lease. */
  ghost predicate Tracked(s: State, id: JobId)
    requires id in s.jobs
  {
    var j := s.jobs[id];
    !j.status.Terminal() ==> if Held(s, id) then id in s.active && s.active[id] == j.lease else id !in s.active
  }

  /** Links only ever join a parser root and the child derived from it. */
  ghost predicate Linked(jobs: map<JobId, Job>, id: JobId)
    requires id in jobs
  {
    var j := jobs[id];
    && (j.child.Some? ==> j.child.value == ChildOf(id) && ChildOf(id) in jobs)
    && (j.root.Some? ==> id == ChildOf(j.root.value))
    && (id.ChildOf? ==>
          && j.root == Some(id.parent) && j.kind == FileChatJob && j.child.None?
          && id.parent in jobs && jobs[id.parent].kind == ParseJob)
  }

  ghost predicate JobOk(cfg: Config, s: State, id: JobId)
    requires id in s.jobs
  {
    Seated(s, id) && Sized(cfg, s.jobs[id]) && Tracked(s, id) && Linked(s.jobs, id)
  }

  // ---------------------------------------------------------------- whole store

  ghost predicate NoStrays(s: State) {
    forall k, id :: id !in s.jobs ==> Occurs(s.lists, k, id) == 0
  }

  /** A target is within its base tokens, or is a CPU running one oversize chat or parse job alone. */
  ghost predicate WithinCapacity(cfg: Config, s: State, t: TargetId)
    requires t in cfg.targets
  {
    || CounterAt(s.counters, t, Tokens) <= BaseTokens(cfg.targets[t])
    || (&& cfg.targets[t].kind == Cpu
        && exists id :: id in s.jobs && Holders(s, t) == {id} && s.jobs[id].cls in {Chat, Parse})
  }

  /** Waiting jobs plus jobs that hold a reservation. */
  ghost function Load(s: State): nat {
    PendingTotal(s.lists) + |HeldSet(s)|
  }

  ghost predicate Bounded(cfg: Config, s: State) {
    Load(s) <= QueueLimit(cfg) + ClusterTokens(cfg)
  }

  ghost predicate Inv(cfg: Config, s: State) {
    && cfg.Valid()
    && (forall id {:trigger JobOk(cfg, s, id)} | id in s.jobs :: JobOk(cfg, s, id))
    && NoStrays(s)
    && s.active.Keys <= s.jobs.Keys
    && Balanced(s)
    && (forall t | t in cfg.targets :: WithinCapacity(cfg, s, t))
    && Bounded(cfg, s)
  }

  lemma InitialInv(cfg: Config)
    requires cfg.Valid()
    ensures Inv(cfg, EMPTY)
  {
    assert HeldSet(EMPTY) == {};
    forall t: TargetId
      ensures Holders(EMPTY, t) == {}
    {
    }
    assert PendingTotal(EMPTY.lists) == 0 by {
      PendingEmpty(QUEUE_ORDER);
    }
  }

  lemma {:induction false} PendingEmpty(keys: seq<Key>)
    ensures PendingIn(map[], keys) == 0
  {
    if keys != [] {
      PendingEmpty(keys[1..]);
    }
  }

  // ---------------------------------------------------------------- what every step must show

  /** A job outside the step keeps its record, unless it is a live root whose child `id` just ended. */
  ghost predicate Spared(before: Job, after: Job, x: JobId, id: JobId, moved: Job) {
    || after == before
    || (id == ChildOf(x) && x.Fresh? && !before.status.Terminal() && moved.status.Terminal()
        && after == RootAfter(before, id, moved))
  }

  /** When a child ends, a live root takes over its outcome. */
  ghost predicate Mirrored(s: State, s': State, id: JobId)
    requires id in s'.jobs
  {
    id.ChildOf? && id in s.jobs && id.parent in s.jobs && id.parent in s'.jobs
    && !s.jobs[id].status.Terminal() && s'.jobs[id].status.Terminal() && !s.jobs[id.parent].status.Terminal()
    ==> s'.jobs[id.parent] == RootAfter(s.jobs[id.parent], id, s'.jobs[id])
  }

  /** What a step on one job may do to the rest of the store. */
  ghost predicate Frame(s: State, s': State, id: JobId) {
    && SeatsKept(s, s', id)
    && (id in s.jobs ==> s'.jobs[id].kind == s.jobs[id].kind)
    && (forall x {:trigger Spared(s.jobs[x], s'.jobs[x], x, id, s'.jobs[id])} | x in s.jobs && x != id ::
          Spared(s.jobs[x], s'.jobs[x], x, id, s'.jobs[id]))
    && Mirrored(s, s', id)
    && (forall x | x != id ::
          && (x in s'.active <==> x in s.active)
          && (x in s.active ==> s'.active[x] == s.active[x]))
  }

  lemma OtherOk(cfg: Config, s: State, s': State, id: JobId, x: JobId)
    requires Frame(s, s', id) && x != id && x in s.jobs && JobOk(cfg, s, x)
    requires x.ChildOf? ==> x.parent in s.jobs && s.jobs[x.parent].kind == ParseJob
    ensures JobOk(cfg, s', x)
  {
    assert SameSeat(s.jobs[x], s'.jobs[x]) && Spared(s.jobs[x], s'.jobs[x], x, id, s'.jobs[id]);
    OtherHeldKept(s, s', id, x);
    assert forall k :: Occurs(s'.lists, k, x) == Occurs(s.lists, k, x);
    if x.ChildOf? && x.parent != id {
      assert SameSeat(s.jobs[x.parent], s'.jobs[x.parent]);
    }
  }

  /** A target whose holders only become fewer stays within capacity. */
  lemma FewerHolders(cfg: Config, s: State, s': State, t: TargetId)
    requires t in cfg.targets && WithinCapacity(cfg, s, t)
    requires Holders(s', t) <= Holders(s, t)
    requires forall x | x in Holders(s', t) :: s'.jobs[x].cls == s.jobs[x].cls
    requires CounterAt(s'.counters, t, Tokens) <= CounterAt(s.counters, t, Tokens)
    requires Holders(s', t) == {} ==> CounterAt(s'.counters, t, Tokens) == 0
    ensures WithinCapacity(cfg, s', t)
  {
    if CounterAt(s'.counters, t, Tokens) > BaseTokens(cfg.targets[t]) {
      var lone :| lone in s.jobs && Holders(s, t) == {lone} && s.jobs[lone].cls in {Chat, Parse};
      assert lone in Holders(s', t);
      assert Holders(s', t) == {lone};
    }
  }

  lemma CapacityKept(cfg: Config, s: State, s': State, id: JobId, t: TargetId)
    requires t in cfg.targets && WithinCapacity(cfg, s, t)
    requires Balanced(s) && Balanced(s') && SeatsKept(s, s', id)
    requires id !in Holders(s', t)
    ensures WithinCapacity(cfg, s', t)
  {
    TotalMoves(s, s', id, t, Tokens);
    OtherHoldersKept(s, s', id, t);
    forall x | x in Holders(s', t)
      ensures x in Holders(s, t) && s'.jobs[x].cls == s.jobs[x].cls
    {
      assert x in Holders(s', t) - {id};
      assert SameSeat(s.jobs[x], s'.jobs[x]);
    }
    FewerHolders(cfg, s, s', t);
  }

  /** The frame rule: a step that moves one job, and accounts for it, keeps the invariant. */
  lemma Advance(cfg: Config, s: State, s': State, id: JobId)
    requires Inv(cfg, s) && Frame(s, s', id)
    requires JobOk(cfg, s', id) && CountersFollow(s, s', id)
    requires forall t | t in cfg.targets && id in Holders(s', t) :: WithinCapacity(cfg, s', t)
    requires Bounded(cfg, s')
    ensures Inv(cfg, s')
  {
    BalancedKept(s, s', id);
    forall x | x in s'.jobs
      ensures JobOk(cfg, s', x)
    {
      if x != id {
        assert JobOk(cfg, s, x);
        OtherOk(cfg, s, s', id, x);
      }
    }
    forall t | t in cfg.targets
      ensures WithinCapacity(cfg, s', t)
    {
      if id !in Holders(s', t) {
        CapacityKept(cfg, s, s', id, t);
      }
    }
    forall k, x | x !in s'.jobs
      ensures Occurs(s'.lists, k, x) == 0
    {
      assert Occurs(s'.lists, k, x) == Occurs(s.lists, k, x);
    }
  }

  // ---------------------------------------------------------------- the load

  /** How the waiting total moves when one list is replaced. */
  lemma {:induction false} PendingReplaced(lists: map<Key, seq<JobId>>, keys: seq<Key>, k: Key, xs: seq<JobId>)
    requires forall a, b | 0 <= a < b < |keys| :: keys[a] != keys[b]
    ensures PendingIn(lists[k := xs], keys)
         == PendingIn(lists, keys) + if k in keys then |xs| - |ListAt(lists, k)| else 0
  {
    if keys != [] {
      PendingReplaced(lists, keys[1..], k, xs);
      assert keys == [keys[0]] + keys[1..];
    }
  }

  lemma PushLoads(lists: map<Key, seq<JobId>>, k: Key, id: JobId)
    ensures PendingTotal(RPush(lists, k, id)) == PendingTotal(lists) + if k in QUEUE_ORDER then 1 else 0
  {
    PendingReplaced(lists, QUEUE_ORDER, k, ListAt(lists, k) + [id]);
  }

  lemma RemoveUnloads(lists: map<Key, seq<JobId>>, k: Key, id: JobId)
    ensures PendingTotal(RemoveOne(lists, k, id))
         == PendingTotal(lists) - if k in QUEUE_ORDER && Occurs(lists, k, id) > 0 then 1 else 0
  {
    LRemCounts(ListAt(lists, k), id);
    PendingReplaced(lists, QUEUE_ORDER, k, LRem(ListAt(lists, k), id));
  }

  lemma OneElementMoves<T>(a: set<T>, b: set<T>, x: T)
    requires a - {x} == b - {x}
    ensures |b| == |a| - (if x in a then 1 else 0) + (if x in b then 1 else 0)
  {
    assert a == if x in a then a - {x} + {x} else a - {x};
    assert b == if x in b then b - {x} + {x} else b - {x};
  }

  lemma HeldSetMoves(s: State, s': State, id: JobId)
    requires SeatsKept(s, s', id)
    ensures |HeldSet(s')| == |HeldSet(s)| - (if id in HeldSet(s) then 1 else 0) + (if id in HeldSet(s') then 1 else 0)
  {
    forall x | x != id && x in s.jobs
      ensures x in HeldSet(s) <==> x in HeldSet(s')
    {
      OtherHeldKept(s, s', id, x);
    }
    OneElementMoves(HeldSet(s), HeldSet(s'), id);
  }

  /** One token at least for each holder: the number of holders is at most the tokens. */
  lemma {:induction false} CountBelowTokens(jobs: map<JobId, Job>, ids: set<JobId>)
    requires ids <= jobs.Keys
    requires forall id | id in ids :: jobs[id].tokens >= 1
    ensures |ids| <= Total(jobs, ids, Tokens)
    decreases |ids|
  {
    if ids != {} {
      var id :| id in ids;
      TotalSplit(jobs, ids, id, Tokens);
      CountBelowTokens(jobs, ids - {id});
    }
  }

  lemma HoldersBelowBase(cfg: Config, s: State, t: TargetId)
    requires Inv(cfg, s) && t in cfg.targets
    ensures |Holders(s, t)| <= BaseTokens(cfg.targets[t])
  {
    assert WithinCapacity(cfg, s, t);
    forall id | id in Holders(s, t)
      ensures s.jobs[id].tokens >= 1
    {
      assert JobOk(cfg, s, id);
    }
    CountBelowTokens(s.jobs, Holders(s, t));
  }

  ghost function HeldOn(s: State, among: set<TargetId>): set<JobId> {
    set id | id in s.jobs && Held(s, id) && s.jobs[id].target.value in among
  }

  lemma HeldOnSplit(s: State, among: set<TargetId>, t: TargetId)
    requires t in among
    ensures |HeldOn(s, among)| == |HeldOn(s, among - {t})| + |Holders(s, t)|
  {
    assert HeldOn(s, among) == HeldOn(s, among - {t}) + Holders(s, t);
    assert HeldOn(s, among - {t}) !! Holders(s, t);
  }

  lemma {:induction false} HeldOnBelow(cfg: Config, s: State, among: set<TargetId>)
    requires among <= cfg.targets.Keys
    requires forall t | t in among :: |Holders(s, t)| <= BaseTokens(cfg.targets[t])
    ensures |HeldOn(s, among)| <= BaseSum(cfg.targets, among)
    decreases |among|
  {
    if among == {} {
      assert HeldOn(s, among) == {};
    } else {
      var t :| t in among && BaseSum(cfg.targets, among)
          == BaseTokens(cfg.targets[t]) + BaseSum(cfg.targets, among - {t});
      HeldOnBelow(cfg, s, among - {t});
      HeldOnSplit(s, among, t);
    }
  }

  /** All reservations together are within the cluster's tokens. */
  lemma HeldBelowCluster(cfg: Config, s: State)
    requires Inv(cfg, s)
    ensures |HeldSet(s)| <= ClusterTokens(cfg)
  {
    forall id | id in HeldSet(s)
      ensures s.jobs[id].target.value in cfg.targets
    {
      assert JobOk(cfg, s, id);
    }
    assert HeldSet(s) == HeldOn(s, cfg.targets.Keys);
    forall t | t in cfg.targets
      ensures |Holders(s, t)| <= BaseTokens(cfg.targets[t])
    {
      HoldersBelowBase(cfg, s, t);
    }
    HeldOnBelow(cfg, s, cfg.targets.Keys);
  }
}
