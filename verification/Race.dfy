/**
  Several schedulers and releasing workers at once. Each step is one Redis command or one
  transaction; a target's counters are read, checked and changed under that target's lock,
  while pushes onto pending lists, cancellations and record writes need no lock.
*/
module Race {
  import opened Common
  import opened RedisLists
  import opened Jobs
  import opened Admission
  import opened Lifecycle
  import opened Ledger
  import opened Steps

  /** Where a process stands in `try_admit_job` or in `_release_reserved_capacity`. */
  datatype Pc =
    | Idle
    | Locked(t: TargetId, id: JobId, queue: Key)
    | HasJob(t: TargetId, id: JobId, queue: Key, j: Job)
    | HasUsage(t: TargetId, id: JobId, queue: Key, j: Job, u: Usage)
    | Decided(t: TargetId, id: JobId, queue: Key, j: Job, d: Decision)
    | Removed(t: TargetId, id: JobId, j: Job, d: Decision)
    | Reserved(t: TargetId, id: JobId)
    | Releasing(t: TargetId, ticket: nat)
    | Subtracted(t: TargetId, j: Job)
    | Rewriting(t: TargetId, j: Job, read: Counters)

  datatype System = System(
    records: map<JobId, Job>,
    pending: map<Key, seq<JobId>>,
    counters: Counters,
    locks: map<TargetId, nat>,
    held: map<nat, Job>,                // reservations made and not yet given back
    pushes: map<JobId, nat>,            // how often an id was put on a pending list
    removals: map<JobId, nat>,          // how often one was taken off
    reservations: map<JobId, nat>,      // how often capacity was reserved for it
    procs: map<nat, Pc>)

  datatype Step =
    | StartAdmit(p: nat, t: TargetId, id: JobId, queue: Key)
    | Go(p: nat, report: Report, gpuWorkers: bool, now: int, ticket: nat)
    | StartRelease(p: nat, ticket: nat)
    | Push(id: JobId, queue: Key)       // enqueue or re-queue
    | Unlist(id: JobId, queue: Key)     // the LREM of a cancellation
    | WriteRecord(id: JobId, j: Job)    // any save of a job record

  function Count(m: map<JobId, nat>, id: JobId): nat { if id in m then m[id] else 0 }

  function Bump(m: map<JobId, nat>, id: JobId): map<JobId, nat> { m[id := Count(m, id) + 1] }

  function At(s: System, p: nat, pc: Pc): System { s.(procs := s.procs[p := pc]) }

  function Unlock(s: System, p: nat, t: TargetId): System {
    At(s.(locks := s.locks - {t}), p, Idle)
  }

  function PcOf(s: System, p: nat): Pc { if p in s.procs then s.procs[p] else Idle }

  /**
    `HINCRBY` with the usage fields read before and written back not below zero; only keys that exist
    are rewritten.
  */
  function WriteBack(c: Counters, t: TargetId, read: Counters): Counters {
    map k | k in c :: if k.0 == t && !k.1.ModelRef? && k in read then Max(0, read[k]) else c[k]
  }

  function Advance(cfg: Config, s: System, p: nat, report: Report, gpuWorkers: bool, now: int, ticket: nat): System
    requires cfg.Valid()
  {
    match PcOf(s, p)
    case Idle => s
    case Locked(t, id, queue) =>
      if id in s.records && s.records[id].status == Queued
      then At(s, p, HasJob(t, id, queue, Downgrade(s.records[id], gpuWorkers)))
      else Unlock(s, p, t)
    case HasJob(t, id, queue, j) => At(s, p, HasUsage(t, id, queue, j, ReadUsage(s.counters, t, j.model)))
    case HasUsage(t, id, queue, j, u) =>
      if t !in cfg.targets then Unlock(s, p, t)
      else
        var d := Evaluate(cfg, j, cfg.targets[t], u.(modelRefs := CounterAt(s.counters, t, ModelRef(j.model))), report);
        if d.Admit? then At(s, p, Decided(t, id, queue, j, d)) else Unlock(s, p, t)
    case Decided(t, id, queue, j, d) =>
      if id in ListAt(s.pending, queue)
      then At(s.(pending := RemoveOne(s.pending, queue, id), removals := Bump(s.removals, id)), p, Removed(t, id, j, d))
      else Unlock(s, p, t)
    case Removed(t, id, j, d) =>
      if d.Reject? || ticket in s.held then s
      else
        var a := AdmittedRecord(cfg, j, t, d, now);
        At(s.(counters := Reserve(s.counters, t, a), held := s.held[ticket := a],
            reservations := Bump(s.reservations, id)),
           p, Reserved(t, id))
    case Reserved(t, id) => Unlock(s, p, t)
    case Releasing(t, ticket) =>
      if ticket in s.held
      then At(s.(counters := Subtract(s.counters, t, s.held[ticket]), held := s.held - {ticket}), p,
          Subtracted(t, s.held[ticket]))
      else Unlock(s, p, t)
    case Subtracted(t, j) => At(s, p, Rewriting(t, j, s.counters))
    case Rewriting(t, j, read) =>
      Unlock(s.(counters := DropDeadRef(WriteBack(s.counters, t, read), t, j.model)), p, t)
  }

  function Next(cfg: Config, s: System, step: Step): System
    requires cfg.Valid()
  {
    match step
    case StartAdmit(p, t, id, queue) =>
      if PcOf(s, p).Idle? && t !in s.locks then At(s.(locks := s.locks[t := p]), p, Locked(t, id, queue)) else s
    case Go(p, report, gpuWorkers, now, ticket) => Advance(cfg, s, p, report, gpuWorkers, now, ticket)
    case StartRelease(p, ticket) =>
      if PcOf(s, p).Idle? && ticket in s.held && s.held[ticket].target.Some? && s.held[ticket].target.value !in s.locks
      then At(s.(locks := s.locks[s.held[ticket].target.value := p]), p, Releasing(s.held[ticket].target.value, ticket))
      else s
    case Push(id, queue) => s.(pending := RPush(s.pending, queue, id), pushes := Bump(s.pushes, id))
    case Unlist(id, queue) =>
      if id in ListAt(s.pending, queue)
      then s.(pending := RemoveOne(s.pending, queue, id), removals := Bump(s.removals, id)) else s
    case WriteRecord(id, j) => s.(records := s.records[id := j])
  }

  /** Callers write records of jobs that name a model. */
  predicate Sane(step: Step) { step.WriteRecord? ==> step.j.model != "" }

  const START := System(map[], map[], map[], map[], map[], map[], map[], map[], map[])

  function After(cfg: Config, s: System, steps: seq<Step>): System
    requires cfg.Valid()
    decreases |steps|
  {
    if steps == [] then s else After(cfg, Next(cfg, s, steps[0]), steps[1..])
  }

  // ---------------------------------------------------------------- the ledger of pushes

  ghost function AllOccurrences(pending: map<Key, seq<JobId>>, keys: set<Key>, id: JobId): nat {
    if keys == {} then 0
    else
      var k :| k in keys;
      Occurs(pending, k, id) + AllOccurrences(pending, keys - {k}, id)
  }

  lemma {:induction false} OccurrencesSplit(pending: map<Key, seq<JobId>>, keys: set<Key>, k: Key, id: JobId)
    requires k in keys
    ensures AllOccurrences(pending, keys, id) == Occurs(pending, k, id) + AllOccurrences(pending, keys - {k}, id)
    decreases |keys|
  {
    var first :| first in keys && AllOccurrences(pending, keys, id)
                                  == Occurs(pending, first, id) + AllOccurrences(pending, keys - {first}, id);
    if first != k {
      OccurrencesSplit(pending, keys - {first}, k, id);
      OccurrencesSplit(pending, keys - {k}, first, id);
      assert keys - {first} - {k} == keys - {k} - {first};
    }
  }

  lemma {:induction false} OccurrencesFrame(a: map<Key, seq<JobId>>, b: map<Key, seq<JobId>>, keys: set<Key>, id: JobId)
    requires forall k | k in keys :: Occurs(a, k, id) == Occurs(b, k, id)
    ensures AllOccurrences(a, keys, id) == AllOccurrences(b, keys, id)
    decreases |keys|
  {
    if keys != {} {
      var k :| k in keys;
      OccurrencesSplit(a, keys, k, id);
      OccurrencesSplit(b, keys, k, id);
      OccurrencesFrame(a, b, keys - {k}, id);
    }
  }

  /** How often an id is on the pending lists. */
  ghost function Listed(s: System, id: JobId): nat { AllOccurrences(s.pending, s.pending.Keys, id) }

  /** Replacing one list moves the count by that list's change. */
  lemma ListedMoves(a: map<Key, seq<JobId>>, b: map<Key, seq<JobId>>, k: Key, id: JobId)
    requires b.Keys == a.Keys + {k}
    requires forall k' | k' != k :: Occurs(a, k', id) == Occurs(b, k', id)
    ensures AllOccurrences(b, b.Keys, id) == AllOccurrences(a, a.Keys, id) - Occurs(a, k, id) + Occurs(b, k, id)
  {
    OccurrencesSplit(b, b.Keys, k, id);
    OccurrencesFrame(a, b, b.Keys - {k}, id);
    if k in a {
      OccurrencesSplit(a, a.Keys, k, id);
      assert a.Keys - {k} == b.Keys - {k};
    } else {
      assert b.Keys - {k} == a.Keys;
    }
  }

  /** The processes that took an id off its list and have not reserved yet. */
  ghost function Between(s: System, id: JobId): set<nat> {
    set p | p in s.procs && s.procs[p].Removed? && s.procs[p].id == id
  }

  /** Pushes are on a list or taken off; a reservation uses up a removal. */
  ghost predicate PushLedger(s: System, id: JobId) {
    && Count(s.pushes, id) == Listed(s, id) + Count(s.removals, id)
    && Count(s.reservations, id) + |Between(s, id)| <= Count(s.removals, id)
  }

  // ---------------------------------------------------------------- invariant

  ghost function HeldOn(s: System, t: TargetId): set<nat> {
    set n | n in s.held && s.held[n].target == Some(t)
  }

  /** What a process knows at its pc; a process inside a target's critical section owns its lock. */
  ghost predicate Knows(cfg: Config, s: System, p: nat)
    requires p in s.procs
  {
    var pc := s.procs[p];
    && (!pc.Idle? ==> pc.t in s.locks && s.locks[pc.t] == p)
    && (pc.HasJob? || pc.HasUsage? || pc.Decided? || pc.Removed? || pc.Subtracted? || pc.Rewriting?
        ==> pc.j.model != "")
    && (pc.HasUsage? ==> pc.u == ReadUsage(s.counters, pc.t, pc.j.model))
    && (pc.Decided? || pc.Removed? ==> pc.d.Admit? && pc.t in cfg.targets && Fits(cfg, s, pc.t, pc.j.cls, pc.d.tokens))
    && (pc.Releasing? ==> pc.ticket in s.held && s.held[pc.ticket].target == Some(pc.t))
    && (pc.Rewriting? ==>
          forall k: (TargetId, Field) | k.0 == pc.t ::
            (k in pc.read <==> k in s.counters) && (k in pc.read ==> pc.read[k] == s.counters[k]))
  }

  /** There is room for the tokens, or the target is an empty CPU and the job chat or parse. */
  ghost predicate Fits(cfg: Config, s: System, t: TargetId, cls: Workload, tokens: nat)
    requires t in cfg.targets
  {
    || CounterAt(s.counters, t, Tokens) + tokens <= BaseTokens(cfg.targets[t])
    || (cfg.targets[t].kind == Cpu && HeldOn(s, t) == {} && cls in {Chat, Parse})
  }

  ghost predicate TokenBound(cfg: Config, s: System, t: TargetId)
    requires t in cfg.targets
  {
    || CounterAt(s.counters, t, Tokens) <= BaseTokens(cfg.targets[t])
    || (cfg.targets[t].kind == Cpu && exists n :: n in s.held && HeldOn(s, t) == {n} && s.held[n].cls in {Chat, Parse})
  }

  ghost predicate Balanced(s: System) {
    forall t, f :: CounterAt(s.counters, t, f) == Total(s.held, HeldOn(s, t), f)
  }

  ghost predicate Inv(cfg: Config, s: System) {
    && cfg.Valid()
    && (forall p {:trigger Knows(cfg, s, p)} | p in s.procs :: Knows(cfg, s, p))
    && (forall n | n in s.held :: s.held[n].model != "")
    && (forall id | id in s.records :: s.records[id].model != "")
    && Balanced(s)
    && (forall t | t in cfg.targets :: TokenBound(cfg, s, t))
    && (forall id {:trigger PushLedger(s, id)} :: PushLedger(s, id))
  }

  lemma StartInv(cfg: Config)
    requires cfg.Valid()
    ensures Inv(cfg, START)
  {
    forall t: TargetId
      ensures HeldOn(START, t) == {}
    {
    }
    forall id
      ensures PushLedger(START, id)
    {
      assert Between(START, id) == {};
    }
  }

  // ---------------------------------------------------------------- frames

  /** A target's counters and reservations are as they were. */
  ghost predicate SameTarget(s: System, s': System, t: TargetId) {
    && HeldOn(s', t) == HeldOn(s, t)
    && (forall f ::
          && ((t, f) in s'.counters <==> (t, f) in s.counters)
          && ((t, f) in s.counters ==> s'.counters[(t, f)] == s.counters[(t, f)]))
  }

  lemma OtherKnows(cfg: Config, s: System, s': System, p: nat, x: nat)
    requires x in s.procs && x != p && Knows(cfg, s, x) && x in s'.procs && s'.procs[x] == s.procs[x]
    requires forall t | t in s.locks && s.locks[t] == x :: t in s'.locks && s'.locks[t] == x && SameTarget(s, s', t)
    requires forall n | n in s.held && n in s'.held :: s'.held[n] == s.held[n]
    ensures Knows(cfg, s', x)
  {
    var pc := s.procs[x];
    if !pc.Idle? {
      assert SameTarget(s, s', pc.t);
      forall f
        ensures CounterAt(s'.counters, pc.t, f) == CounterAt(s.counters, pc.t, f)
      {
      }
      assert pc.Releasing? ==> pc.ticket in HeldOn(s', pc.t);
      if pc.Rewriting? {
        forall k: (TargetId, Field) | k.0 == pc.t
          ensures (k in pc.read <==> k in s'.counters) && (k in pc.read ==> pc.read[k] == s'.counters[k])
        {
          assert k == (pc.t, k.1);
        }
      }
    }
  }

  /** The ledger of an id reads only the lists, the counts and the processes between removal and reservation. */
  lemma LedgerSame(s: System, s': System, id: JobId)
    requires PushLedger(s, id)
    requires s'.pending == s.pending && Count(s'.pushes, id) == Count(s.pushes, id)
    requires Count(s'.removals, id) == Count(s.removals, id) && Count(s'.reservations, id) == Count(s.reservations, id)
    requires Between(s', id) == Between(s, id)
    ensures PushLedger(s', id)
  {
  }

  lemma BetweenSame(s: System, s': System, p: nat, id: JobId)
    requires p in s'.procs && s'.procs == s.procs[p := s'.procs[p]]
    requires !(PcOf(s, p).Removed? && PcOf(s, p).id == id) && !(s'.procs[p].Removed? && s'.procs[p].id == id)
    ensures Between(s', id) == Between(s, id)
  {
  }

  // ---------------------------------------------------------------- steps that leave counters alone

  /** A process moves to a pc it knows enough for, possibly taking or giving back a lock. */
  lemma QuietOk(cfg: Config, s: System, s': System, p: nat)
    requires Inv(cfg, s)
    requires p in s'.procs && s'.procs == s.procs[p := s'.procs[p]]
    requires s' == s.(procs := s'.procs, locks := s'.locks)
    requires forall t | t in s.locks && s.locks[t] != p :: t in s'.locks && s'.locks[t] == s.locks[t]
    requires Knows(cfg, s', p)
    requires !PcOf(s, p).Removed? && !s'.procs[p].Removed?
    ensures Inv(cfg, s')
  {
    hide Total;
    forall x | x in s'.procs
      ensures Knows(cfg, s', x)
    {
      if x != p {
        assert Knows(cfg, s, x);
        OtherKnows(cfg, s, s', p, x);
      }
    }
    forall t
      ensures HeldOn(s', t) == HeldOn(s, t)
    {
    }
    forall id
      ensures PushLedger(s', id)
    {
      assert PushLedger(s, id);
      BetweenSame(s, s', p, id);
      LedgerSame(s, s', id);
    }
    forall t | t in cfg.targets
      ensures TokenBound(cfg, s', t)
    {
      assert TokenBound(cfg, s, t);
    }
  }

  /** Lists and records change; processes and counters do not. */
  lemma StoreOk(cfg: Config, s: System, s': System)
    requires Inv(cfg, s)
    requires s' == s.(records := s'.records, pending := s'.pending, pushes := s'.pushes, removals := s'.removals)
    requires forall id | id in s'.records :: s'.records[id].model != ""
    requires forall id {:trigger PushLedger(s', id)} :: PushLedger(s', id)
    ensures Inv(cfg, s')
  {
    hide Total, PushLedger;
    forall t
      ensures HeldOn(s', t) == HeldOn(s, t)
    {
    }
    forall x | x in s'.procs
      ensures Knows(cfg, s', x)
    {
      assert Knows(cfg, s, x);
      OtherKnows(cfg, s, s', x + 1, x);
    }
    forall t | t in cfg.targets
      ensures TokenBound(cfg, s', t)
    {
      assert TokenBound(cfg, s, t);
    }
  }

  lemma PushOk(cfg: Config, s: System, id: JobId, queue: Key)
    requires Inv(cfg, s)
    ensures Inv(cfg, Next(cfg, s, Push(id, queue)))
  {
    hide Balanced, TokenBound, Knows, PushLedger;
    var s' := Next(cfg, s, Push(id, queue));
    forall x
      ensures PushLedger(s', x)
    {
      assert PushLedger(s, x);
      Pushing(s, id, queue, x);
    }
    StoreOk(cfg, s, s');
  }

  lemma Pushing(s: System, id: JobId, queue: Key, x: JobId)
    requires PushLedger(s, x)
    ensures PushLedger(s.(pending := RPush(s.pending, queue, id), pushes := Bump(s.pushes, id)), x)
  {
    var s' := s.(pending := RPush(s.pending, queue, id), pushes := Bump(s.pushes, id));
    RPushOccurs(s.pending, queue, id);
    ListedMoves(s.pending, s'.pending, queue, x);
    assert Between(s', x) == Between(s, x);
  }

  lemma Unlisting(s: System, id: JobId, queue: Key, x: JobId)
    requires PushLedger(s, x) && id in ListAt(s.pending, queue)
    ensures var s' := s.(pending := RemoveOne(s.pending, queue, id), removals := Bump(s.removals, id));
            && Count(s'.pushes, x) == Listed(s', x) + Count(s'.removals, x)
            && Count(s'.reservations, x) + |Between(s', x)| + (if x == id then 1 else 0) <= Count(s'.removals, x)
  {
    var s' := s.(pending := RemoveOne(s.pending, queue, id), removals := Bump(s.removals, id));
    RemoveOneOccurs(s.pending, queue, id);
    ListedMoves(s.pending, s'.pending, queue, x);
    assert Occurs(s.pending, queue, id) > 0;
    assert Between(s', x) == Between(s, x);
  }

  lemma UnlistOk(cfg: Config, s: System, id: JobId, queue: Key)
    requires Inv(cfg, s) && id in ListAt(s.pending, queue)
    ensures Inv(cfg, s.(pending := RemoveOne(s.pending, queue, id), removals := Bump(s.removals, id)))
  {
    hide Balanced, TokenBound, Knows;
    var s' := s.(pending := RemoveOne(s.pending, queue, id), removals := Bump(s.removals, id));
    forall x
      ensures PushLedger(s', x)
    {
      assert PushLedger(s, x);
      Unlisting(s, id, queue, x);
    }
    StoreOk(cfg, s, s');
  }

  /** The LREM of an admission: the id is off the list and the process is between removal and reservation. */
  lemma RemoveOk(cfg: Config, s: System, p: nat)
    requires Inv(cfg, s) && PcOf(s, p).Decided? && s.procs[p].id in ListAt(s.pending, s.procs[p].queue)
    ensures var pc := s.procs[p];
            Inv(cfg, At(s.(pending := RemoveOne(s.pending, pc.queue, pc.id), removals := Bump(s.removals, pc.id)),
                        p, Removed(pc.t, pc.id, pc.j, pc.d)))
  {
    hide Balanced, TokenBound, AllOccurrences, RemoveOne;
    var pc := s.procs[p];
    var mid := s.(pending := RemoveOne(s.pending, pc.queue, pc.id), removals := Bump(s.removals, pc.id));
    var s' := At(mid, p, Removed(pc.t, pc.id, pc.j, pc.d));
    assert Knows(cfg, s, p);
    UnlistOk(cfg, s, pc.id, pc.queue);
    forall x
      ensures PushLedger(s', x)
    {
      assert PushLedger(s, x);
      Unlisting(s, pc.id, pc.queue, x);
      NowBetween(mid, s', p, x);
    }
    assert Knows(cfg, mid, p);
    RemovedKnows(cfg, mid, s', p);
  }

  lemma NowBetween(s: System, s': System, p: nat, x: JobId)
    requires p in s.procs && p in s'.procs && s'.procs == s.procs[p := s'.procs[p]]
    requires !s.procs[p].Removed? && s'.procs[p].Removed?
    ensures |Between(s', x)| == |Between(s, x)| + if x == s'.procs[p].id then 1 else 0
  {
    assert Between(s', x) == if x == s'.procs[p].id then Between(s, x) + {p} else Between(s, x);
    assert p !in Between(s, x);
  }

  /** Moving one process without touching the store keeps everything but its own knowledge and the ledger. */
  lemma RemovedKnows(cfg: Config, s: System, s': System, p: nat)
    requires Inv(cfg, s) && p in s.procs
    requires p in s'.procs && s' == s.(procs := s.procs[p := s'.procs[p]])
    requires Knows(cfg, s', p)
    requires forall id {:trigger PushLedger(s', id)} :: PushLedger(s', id)
    ensures Inv(cfg, s')
  {
    hide Total, PushLedger;
    forall t
      ensures HeldOn(s', t) == HeldOn(s, t)
    {
    }
    forall x | x in s'.procs
      ensures Knows(cfg, s', x)
    {
      if x != p {
        assert Knows(cfg, s, x);
        OtherKnows(cfg, s, s', p, x);
      }
    }
    forall t | t in cfg.targets
      ensures TokenBound(cfg, s', t)
    {
      assert TokenBound(cfg, s, t);
    }
  }

  // ---------------------------------------------------------------- steps inside a target's critical section

  /** A process that owns a target's lock changes that target's counters and reservations, and nobody else's. */
  lemma CriticalOk(cfg: Config, s: System, s': System, p: nat, t: TargetId)
    requires Inv(cfg, s) && p in s.procs && t in s.locks && s.locks[t] == p
    requires s' == s.(counters := s'.counters, held := s'.held, reservations := s'.reservations, procs := s'.procs,
              locks := s'.locks)
    requires p in s'.procs && s'.procs == s.procs[p := s'.procs[p]] && Knows(cfg, s', p)
    requires forall t' | t' in s.locks && s.locks[t'] != p :: t' in s'.locks && s'.locks[t'] == s.locks[t']
    requires forall t' | t' != t :: SameTarget(s, s', t')
    requires forall n | n in s'.held && n in s.held :: s'.held[n] == s.held[n]
    requires forall n | n in s'.held && n !in s.held :: s'.held[n].model != "" && s'.held[n].target == Some(t)
    requires forall f :: CounterAt(s'.counters, t, f) == Total(s'.held, HeldOn(s', t), f)
    requires t in cfg.targets ==> TokenBound(cfg, s', t)
    requires forall id {:trigger PushLedger(s', id)} :: PushLedger(s', id)
    ensures Inv(cfg, s')
  {
    hide PushLedger;
    forall x | x in s'.procs
      ensures Knows(cfg, s', x)
    {
      if x != p {
        assert Knows(cfg, s, x);
        OtherKnows(cfg, s, s', p, x);
      }
    }
    forall t', f
      ensures CounterAt(s'.counters, t', f) == Total(s'.held, HeldOn(s', t'), f)
    {
      if t' != t {
        assert SameTarget(s, s', t');
        TotalFrame(s.held, s'.held, HeldOn(s, t'), f);
        assert CounterAt(s'.counters, t', f) == CounterAt(s.counters, t', f);
      }
    }
    forall t' | t' in cfg.targets
      ensures TokenBound(cfg, s', t')
    {
      if t' != t {
        assert TokenBound(cfg, s, t') && SameTarget(s, s', t');
        assert CounterAt(s'.counters, t', Tokens) == CounterAt(s.counters, t', Tokens);
        if CounterAt(s.counters, t', Tokens) > BaseTokens(cfg.targets[t']) {
          var n :| n in s.held && HeldOn(s, t') == {n} && s.held[n].cls in {Chat, Parse};
          assert n in HeldOn(s', t');
        }
      }
    }
  }

  lemma TotalAdded(held: map<nat, Job>, ids: set<nat>, n: nat, j: Job, f: Field)
    requires ids <= held.Keys && n !in held
    ensures Total(held[n := j], ids + {n}, f) == Total(held, ids, f) + Weight(f, j)
  {
    TotalSplit(held[n := j], ids + {n}, n, f);
    assert ids + {n} - {n} == ids;
    TotalFrame(held, held[n := j], ids, f);
  }

  lemma ReserveLedger(s: System, s': System, p: nat, x: JobId)
    requires PushLedger(s, x) && p in s.procs && s.procs[p].Removed?
    requires p in s'.procs && s'.procs == s.procs[p := s'.procs[p]] && !s'.procs[p].Removed?
    requires s'.pending == s.pending && s'.pushes == s.pushes && s'.removals == s.removals
    requires s'.reservations == Bump(s.reservations, s.procs[p].id)
    ensures PushLedger(s', x)
  {
    var id := s.procs[p].id;
    assert Between(s', x) == if x == id then Between(s, x) - {p} else Between(s, x);
    assert x == id ==> p in Between(s, x);
  }

  /** The reservation: the room seen under the lock is still there. */
  lemma ReserveOk(cfg: Config, s: System, p: nat, now: int, ticket: nat)
    requires Inv(cfg, s) && PcOf(s, p).Removed? && ticket !in s.held
    ensures var pc := s.procs[p];
            pc.d.Admit? &&
            var a := AdmittedRecord(cfg, pc.j, pc.t, pc.d, now);
            Inv(cfg, At(s.(counters := Reserve(s.counters, pc.t, a), held := s.held[ticket := a],
                           reservations := Bump(s.reservations, pc.id)), p, Reserved(pc.t, pc.id)))
  {
    hide PushLedger, Reserve, Total;
    assert Knows(cfg, s, p);
    var pc := s.procs[p];
    var t := pc.t;
    var a := AdmittedRecord(cfg, pc.j, t, pc.d, now);
    var s' := At(s.(counters := Reserve(s.counters, t, a), held := s.held[ticket := a],
                    reservations := Bump(s.reservations, pc.id)), p, Reserved(t, pc.id));
    forall x
      ensures PushLedger(s', x)
    {
      assert PushLedger(s, x);
      ReserveLedger(s, s', p, x);
    }
    HeldAdded(s, s', ticket, a, t);
    ReserveAdds(s.counters, t, a);
    forall f
      ensures CounterAt(s'.counters, t, f) == Total(s'.held, HeldOn(s', t), f)
    {
      TotalAdded(s.held, HeldOn(s, t), ticket, a, f);
    }
    ReserveElsewhere(s, s', t, a);
    if CounterAt(s'.counters, t, Tokens) > BaseTokens(cfg.targets[t]) {
      assert HeldOn(s', t) == {ticket};
    }
    CriticalOk(cfg, s, s', p, t);
  }

  lemma HeldAdded(s: System, s': System, ticket: nat, a: Job, t: TargetId)
    requires ticket !in s.held && s'.held == s.held[ticket := a] && a.target == Some(t)
    ensures HeldOn(s', t) == HeldOn(s, t) + {ticket}
    ensures forall t' | t' != t :: HeldOn(s', t') == HeldOn(s, t')
  {
  }

  lemma ReserveElsewhere(s: System, s': System, t: TargetId, a: Job)
    requires s'.counters == Reserve(s.counters, t, a)
    requires forall t' | t' != t :: HeldOn(s', t') == HeldOn(s, t')
    ensures forall t' | t' != t :: SameTarget(s, s', t')
  {
    hide HeldOn;
  }

  /** The decrement of a release: the ticket leaves the books with its weight. */
  lemma SubtractOk(cfg: Config, s: System, p: nat)
    requires Inv(cfg, s) && PcOf(s, p).Releasing?
    ensures var pc := s.procs[p];
            pc.ticket in s.held &&
            Inv(cfg, At(s.(counters := Subtract(s.counters, pc.t, s.held[pc.ticket]), held := s.held - {pc.ticket}),
                        p, Subtracted(pc.t, s.held[pc.ticket])))
  {
    hide PushLedger, Subtract, Total;
    assert Knows(cfg, s, p);
    var pc := s.procs[p];
    var t := pc.t;
    var j := s.held[pc.ticket];
    var s' := At(s.(counters := Subtract(s.counters, t, j), held := s.held - {pc.ticket}), p, Subtracted(t, j));
    forall x
      ensures PushLedger(s', x)
    {
      assert PushLedger(s, x);
      BetweenSame(s, s', p, x);
      LedgerSame(s, s', x);
    }
    HeldTaken(s, s', pc.ticket, t);
    SubtractTakes(s.counters, t, j);
    forall f
      ensures CounterAt(s'.counters, t, f) == Total(s'.held, HeldOn(s', t), f)
    {
      TotalSplit(s.held, HeldOn(s, t), pc.ticket, f);
      TotalFrame(s.held, s'.held, HeldOn(s', t), f);
    }
    SubtractElsewhere(s, s', t, j);
    if t in cfg.targets {
      assert TokenBound(cfg, s, t);
      if CounterAt(s'.counters, t, Tokens) > BaseTokens(cfg.targets[t]) {
        EmptyTotal(s'.held, Tokens);
        assert HeldOn(s', t) == {};
      }
    }
    CriticalOk(cfg, s, s', p, t);
  }

  lemma EmptyTotal(held: map<nat, Job>, f: Field)
    ensures Total(held, {}, f) == 0
  {
  }

  lemma HeldTaken(s: System, s': System, ticket: nat, t: TargetId)
    requires ticket in s.held && s'.held == s.held - {ticket} && s.held[ticket].target == Some(t)
    ensures HeldOn(s', t) == HeldOn(s, t) - {ticket} && ticket in HeldOn(s, t)
    ensures forall t' | t' != t :: HeldOn(s', t') == HeldOn(s, t')
  {
  }

  lemma SubtractTakes(c: Counters, t: TargetId, j: Job)
    requires j.model != ""
    ensures forall f :: CounterAt(Subtract(c, t, j), t, f) == CounterAt(c, t, f) - Weight(f, j)
  {
    forall f
      ensures CounterAt(Subtract(c, t, j), t, f) == CounterAt(c, t, f) - Weight(f, j)
    {
    }
  }

  lemma SubtractElsewhere(s: System, s': System, t: TargetId, j: Job)
    requires s'.counters == Subtract(s.counters, t, j)
    requires forall t' | t' != t :: HeldOn(s', t') == HeldOn(s, t')
    ensures forall t' | t' != t :: SameTarget(s, s', t')
  {
    hide HeldOn;
  }

  /** The write-back: what was read is still current and never negative, so the clamp writes it unchanged. */
  lemma RewriteOk(cfg: Config, s: System, p: nat)
    requires Inv(cfg, s) && PcOf(s, p).Rewriting?
    ensures var pc := s.procs[p];
            Inv(cfg, Unlock(s.(counters := DropDeadRef(WriteBack(s.counters, pc.t, pc.read), pc.t, pc.j.model)), p,
                pc.t))
  {
    hide PushLedger, Total, DropDeadRef, WriteBack;
    assert Knows(cfg, s, p);
    var pc := s.procs[p];
    var t := pc.t;
    var s' := Unlock(s.(counters := DropDeadRef(WriteBack(s.counters, t, pc.read), t, pc.j.model)), p, t);
    forall x
      ensures PushLedger(s', x)
    {
      assert PushLedger(s, x);
      BetweenSame(s, s', p, x);
      LedgerSame(s, s', x);
    }
    forall t'
      ensures HeldOn(s', t') == HeldOn(s, t')
    {
    }
    CountersNotNegative(s, t);
    RewriteChangesNothing(s.counters, t, pc.read, pc.j.model);
    assert t in cfg.targets ==> TokenBound(cfg, s, t);
    CriticalOk(cfg, s, s', p, t);
  }

  lemma CountersNotNegative(s: System, t: TargetId)
    requires Balanced(s)
    ensures forall f :: CounterAt(s.counters, t, f) >= 0
  {
  }

  lemma RewriteChangesNothing(c: Counters, t: TargetId, read: Counters, m: Model)
    requires forall k: (TargetId, Field) | k.0 == t :: (k in read <==> k in c) && (k in read ==> read[k] == c[k])
    requires forall f :: CounterAt(c, t, f) >= 0
    ensures var c' := DropDeadRef(WriteBack(c, t, read), t, m);
            && (forall f :: CounterAt(c', t, f) == CounterAt(c, t, f))
            && (forall k: (TargetId, Field) | k.0 != t :: (k in c' <==> k in c) && (k in c ==> c'[k] == c[k]))
  {
    var w := WriteBack(c, t, read);
    forall f
      ensures CounterAt(w, t, f) == CounterAt(c, t, f)
    {
      assert CounterAt(c, t, f) >= 0;
      assert (t, f).0 == t;
    }
  }

  // ---------------------------------------------------------------- runs

  lemma UnlockOk(cfg: Config, s: System, p: nat)
    requires Inv(cfg, s) && p in s.procs && !s.procs[p].Idle? && !s.procs[p].Removed?
    ensures Inv(cfg, Unlock(s, p, s.procs[p].t))
  {
    hide Balanced, TokenBound, PushLedger;
    assert Knows(cfg, s, p);
    QuietOk(cfg, s, Unlock(s, p, s.procs[p].t), p);
  }

  lemma MoveOk(cfg: Config, s: System, p: nat, pc: Pc)
    requires Inv(cfg, s) && p in s.procs && !s.procs[p].Removed? && !pc.Removed?
    requires Knows(cfg, At(s, p, pc), p)
    ensures Inv(cfg, At(s, p, pc))
  {
    hide Balanced, TokenBound, PushLedger;
    QuietOk(cfg, s, At(s, p, pc), p);
  }

  lemma LockedOk(cfg: Config, s: System, p: nat, gpuWorkers: bool)
    requires Inv(cfg, s) && PcOf(s, p).Locked? && s.procs[p].id in s.records
    ensures var pc := s.procs[p];
            Inv(cfg, At(s, p, HasJob(pc.t, pc.id, pc.queue, Downgrade(s.records[pc.id], gpuWorkers))))
  {
    hide Balanced, TokenBound, PushLedger;
    assert Knows(cfg, s, p);
    var pc := s.procs[p];
    MoveOk(cfg, s, p, HasJob(pc.t, pc.id, pc.queue, Downgrade(s.records[pc.id], gpuWorkers)));
  }

  lemma ReadOk(cfg: Config, s: System, p: nat)
    requires Inv(cfg, s) && PcOf(s, p).HasJob?
    ensures var pc := s.procs[p];
            Inv(cfg, At(s, p, HasUsage(pc.t, pc.id, pc.queue, pc.j, ReadUsage(s.counters, pc.t, pc.j.model))))
  {
    hide Balanced, TokenBound, PushLedger;
    assert Knows(cfg, s, p);
    var pc := s.procs[p];
    MoveOk(cfg, s, p, HasUsage(pc.t, pc.id, pc.queue, pc.j, ReadUsage(s.counters, pc.t, pc.j.model)));
  }

  lemma RereadOk(cfg: Config, s: System, p: nat)
    requires Inv(cfg, s) && PcOf(s, p).Subtracted?
    ensures Inv(cfg, At(s, p, Rewriting(s.procs[p].t, s.procs[p].j, s.counters)))
  {
    hide Balanced, TokenBound, PushLedger;
    assert Knows(cfg, s, p);
    MoveOk(cfg, s, p, Rewriting(s.procs[p].t, s.procs[p].j, s.counters));
  }

  lemma DecideOk(cfg: Config, s: System, p: nat, report: Report, d: Decision)
    requires Inv(cfg, s) && PcOf(s, p).HasUsage? && s.procs[p].t in cfg.targets && d.Admit?
    requires var pc := s.procs[p];
             d == Evaluate(cfg, pc.j, cfg.targets[pc.t],
                 pc.u.(modelRefs := CounterAt(s.counters, pc.t, ModelRef(pc.j.model))), report)
    ensures var pc := s.procs[p]; Inv(cfg, At(s, p, Decided(pc.t, pc.id, pc.queue, pc.j, d)))
  {
    hide Balanced, TokenBound, PushLedger, Evaluate, Fits;
    assert Knows(cfg, s, p);
    var pc := s.procs[p];
    var s' := At(s, p, Decided(pc.t, pc.id, pc.queue, pc.j, d));
    DecisionFits(cfg, s, p, report);
    FitsSame(cfg, s, s', pc.t);
    MoveOk(cfg, s, p, Decided(pc.t, pc.id, pc.queue, pc.j, d));
  }

  lemma AdvanceOk(cfg: Config, s: System, p: nat, report: Report, gpuWorkers: bool, now: int, ticket: nat)
    requires cfg.Valid() && Inv(cfg, s)
    ensures Inv(cfg, Advance(cfg, s, p, report, gpuWorkers, now, ticket))
  {
    hide Inv, Evaluate, Reserve, Subtract, Unlock, At, DropDeadRef, WriteBack, RemoveOne, ReadUsage;
    if p in s.procs {
      var pc := s.procs[p];
      if !pc.Idle? && !pc.Removed? {
        UnlockOk(cfg, s, p);
      }
      match pc
      case Idle =>
      case Locked(t, id, queue) => if id in s.records { LockedOk(cfg, s, p, gpuWorkers); }
      case HasJob(t, id, queue, j) => ReadOk(cfg, s, p);
      case HasUsage(t, id, queue, j, u) =>
        if t in cfg.targets {
          var d := Evaluate(cfg, j, cfg.targets[t], u.(modelRefs := CounterAt(s.counters, t, ModelRef(j.model))),
              report);
          if d.Admit? {
            DecideOk(cfg, s, p, report, d);
          }
        }
      case Decided(t, id, queue, j, d) => if id in ListAt(s.pending, queue) { RemoveOk(cfg, s, p); }
      case Removed(t, id, j, d) => if ticket !in s.held { ReserveOk(cfg, s, p, now, ticket); }
      case Reserved(t, id) =>
      case Releasing(t, n) => SubtractOk(cfg, s, p);
      case Subtracted(t, j) => RereadOk(cfg, s, p);
      case Rewriting(t, j, read) => RewriteOk(cfg, s, p);
    }
  }

  lemma FitsSame(cfg: Config, s: System, s': System, t: TargetId)
    requires t in cfg.targets && s'.counters == s.counters && s'.held == s.held
    ensures forall cls, tokens :: Fits(cfg, s, t, cls, tokens) <==> Fits(cfg, s', t, cls, tokens)
  {
    assert HeldOn(s, t) == HeldOn(s', t);
  }

  /** What the evaluation under the lock tells about room. */
  lemma DecisionFits(cfg: Config, s: System, p: nat, report: Report)
    requires Inv(cfg, s) && PcOf(s, p).HasUsage? && s.procs[p].t in cfg.targets
    ensures var pc := s.procs[p];
            var d := Evaluate(cfg, pc.j, cfg.targets[pc.t],
                pc.u.(modelRefs := CounterAt(s.counters, pc.t, ModelRef(pc.j.model))), report);
            d.Admit? ==> Fits(cfg, s, pc.t, pc.j.cls, d.tokens)
  {
    hide PushLedger, Evaluate, TokenBound;
    assert Knows(cfg, s, p);
    var pc := s.procs[p];
    var t := pc.t;
    var u := pc.u.(modelRefs := CounterAt(s.counters, t, ModelRef(pc.j.model)));
    var d := Evaluate(cfg, pc.j, cfg.targets[t], u, report);
    forall c
      ensures 0 <= CounterAt(s.counters, t, TokensOf(c)) <= CounterAt(s.counters, t, Tokens)
    {
      TotalOrdered(s.held, HeldOn(s, t), TokensOf(c), Tokens);
    }
    if d.Admit? && u.tokens + d.tokens > BaseTokens(cfg.targets[t]) {
      OversizeIsChatOrParse(cfg, pc.j, cfg.targets[t], u, report);
      ActiveCounts(s.held, HeldOn(s, t));
    }
  }

  lemma StartOk(cfg: Config, s: System, p: nat, t: TargetId, pc: Pc)
    requires Inv(cfg, s) && PcOf(s, p).Idle? && t !in s.locks
    requires pc.Locked? || (pc.Releasing? && pc.ticket in s.held && s.held[pc.ticket].target == Some(t))
    requires pc.t == t
    ensures Inv(cfg, At(s.(locks := s.locks[t := p]), p, pc))
  {
    hide Balanced, TokenBound, PushLedger;
    QuietOk(cfg, s, At(s.(locks := s.locks[t := p]), p, pc), p);
  }

  lemma StepKeeps(cfg: Config, s: System, step: Step)
    requires Inv(cfg, s) && Sane(step)
    ensures Inv(cfg, Next(cfg, s, step))
  {
    hide Balanced, TokenBound, PushLedger, Advance;
    var s' := Next(cfg, s, step);
    if s' != s {
      match step
      case StartAdmit(p, t, id, queue) => StartOk(cfg, s, p, t, Locked(t, id, queue));
      case Go(p, report, gpuWorkers, now, ticket) => AdvanceOk(cfg, s, p, report, gpuWorkers, now, ticket);
      case StartRelease(p, ticket) =>
        StartOk(cfg, s, p, s.held[ticket].target.value, Releasing(s.held[ticket].target.value, ticket));
      case Push(id, queue) => PushOk(cfg, s, id, queue);
      case Unlist(id, queue) => UnlistOk(cfg, s, id, queue);
      case WriteRecord(id, j) => WriteOk(cfg, s, id, j);
    }
  }

  lemma WriteOk(cfg: Config, s: System, id: JobId, j: Job)
    requires Inv(cfg, s) && j.model != ""
    ensures Inv(cfg, s.(records := s.records[id := j]))
  {
    hide Balanced, TokenBound, Knows;
    var s' := s.(records := s.records[id := j]);
    forall x
      ensures PushLedger(s', x)
    {
      assert PushLedger(s, x);
      assert Between(s', x) == Between(s, x);
      LedgerSame(s, s', x);
    }
    StoreOk(cfg, s, s');
  }

  lemma {:induction false} RunKeeps(cfg: Config, s: System, steps: seq<Step>)
    requires cfg.Valid() && Inv(cfg, s) && forall x | x in steps :: Sane(x)
    ensures Inv(cfg, After(cfg, s, steps))
    decreases |steps|
  {
    hide Inv, Next;
    if steps != [] {
      StepKeeps(cfg, s, steps[0]);
      RunKeeps(cfg, Next(cfg, s, steps[0]), steps[1..]);
    }
  }

  /**
    Racing schedulers: under every interleaving, the reservations made for a job never outnumber
    its pushes onto a pending list, each target's tokens are the sum of the reservations held
    there, and they stay within the base tokens or belong to one chat or parse job on a CPU.
  */
  lemma RaceSafe(cfg: Config, steps: seq<Step>, id: JobId, t: TargetId)
    requires cfg.Valid() && (forall x | x in steps :: Sane(x)) && t in cfg.targets
    ensures var s := After(cfg, START, steps);
            && Count(s.reservations, id) <= Count(s.pushes, id)
            && CounterAt(s.counters, t, Tokens) == Total(s.held, HeldOn(s, t), Tokens)
            && TokenBound(cfg, s, t)
  {
    StartInv(cfg);
    RunKeeps(cfg, START, steps);
    assert PushLedger(After(cfg, START, steps), id);
  }
}
