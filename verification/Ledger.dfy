/** Sums of reservations over the jobs that hold them, and how the counter commands move them. */
module Ledger {
  import opened Common
  import opened RedisLists
  import opened Jobs
  import opened Lifecycle

  /** The one list a record says its id may be in. */
  function Home(j: Job): Key {
    if j.worker.Some? then Processing(j.worker.value)
    else if j.target.Some? then Dispatch(PoolFor(j.cls), j.target.value)
    else Pending(j.cls, j.priority)
  }

  /** A job holds a reservation while it sits in its dispatch or processing list. */
  ghost predicate Held(s: State, id: JobId)
    requires id in s.jobs
  {
    s.jobs[id].target.Some? && Occurs(s.lists, Home(s.jobs[id]), id) > 0
  }

  ghost function HeldSet(s: State): set<JobId> {
    set id | id in s.jobs && Held(s, id)
  }

  ghost function Holders(s: State, t: TargetId): set<JobId> {
    set id | id in s.jobs && Held(s, id) && s.jobs[id].target == Some(t)
  }

  ghost function Total<K>(jobs: map<K, Job>, ids: set<K>, f: Field): nat
    requires ids <= jobs.Keys
  {
    if ids == {} then 0
    else
      var id :| id in ids;
      Weight(f, jobs[id]) + Total(jobs, ids - {id}, f)
  }

  lemma {:induction false} TotalSplit<K>(jobs: map<K, Job>, ids: set<K>, id: K, f: Field)
    requires ids <= jobs.Keys && id in ids
    ensures Total(jobs, ids, f) == Weight(f, jobs[id]) + Total(jobs, ids - {id}, f)
    decreases |ids|
  {
    var first :| first in ids && Total(jobs, ids, f) == Weight(f, jobs[first]) + Total(jobs, ids - {first}, f);
    if first != id {
      TotalSplit(jobs, ids - {first}, id, f);
      TotalSplit(jobs, ids - {id}, first, f);
      assert ids - {first} - {id} == ids - {id} - {first};
    }
  }

  lemma {:induction false} TotalFrame<K>(jobs: map<K, Job>, jobs': map<K, Job>, ids: set<K>, f: Field)
    requires ids <= jobs.Keys && ids <= jobs'.Keys
    requires forall id | id in ids :: Weight(f, jobs[id]) == Weight(f, jobs'[id])
    ensures Total(jobs, ids, f) == Total(jobs', ids, f)
    decreases |ids|
  {
    if ids != {} {
      var id :| id in ids;
      TotalSplit(jobs, ids, id, f);
      TotalSplit(jobs', ids, id, f);
      TotalFrame(jobs, jobs', ids - {id}, f);
    }
  }

  /** What a job adds to a target's field in a state. */
  ghost function Share(s: State, id: JobId, t: TargetId, f: Field): nat {
    if id in s.jobs && Held(s, id) && s.jobs[id].target == Some(t) then Weight(f, s.jobs[id]) else 0
  }

  /** The fields that decide where a job is and what it holds. */
  predicate SameSeat(a: Job, b: Job) {
    && a.kind == b.kind && a.cls == b.cls && a.priority == b.priority && a.model == b.model
    && a.target == b.target && a.worker == b.worker && a.lease == b.lease
    && a.tokens == b.tokens && a.vram == b.vram && a.ram == b.ram && a.root == b.root
  }

  /** Every other job keeps its seat. */
  ghost predicate SeatsKept(s: State, s': State, id: JobId) {
    && s'.jobs.Keys == s.jobs.Keys + {id}
    && (forall x {:trigger SameSeat(s.jobs[x], s'.jobs[x])} | x in s.jobs && x != id :: SameSeat(s.jobs[x], s'.jobs[x]))
    && (forall k, x | x != id :: Occurs(s'.lists, k, x) == Occurs(s.lists, k, x))
  }

  lemma OtherHeldKept(s: State, s': State, id: JobId, x: JobId)
    requires SeatsKept(s, s', id) && x != id && x in s.jobs
    ensures Held(s, x) <==> Held(s', x)
    ensures s.jobs[x].target == s'.jobs[x].target
  {
    assert SameSeat(s.jobs[x], s'.jobs[x]);
    assert Occurs(s'.lists, Home(s.jobs[x]), x) == Occurs(s.lists, Home(s.jobs[x]), x);
  }

  lemma OtherHoldersKept(s: State, s': State, id: JobId, t: TargetId)
    requires SeatsKept(s, s', id)
    ensures Holders(s, t) - {id} == Holders(s', t) - {id}
  {
    forall x | x != id && x in s.jobs
      ensures x in Holders(s, t) <==> x in Holders(s', t)
    {
      OtherHeldKept(s, s', id, x);
    }
  }

  lemma TotalWithout(s: State, id: JobId, t: TargetId, f: Field)
    ensures Total(s.jobs, Holders(s, t), f) == Total(s.jobs, Holders(s, t) - {id}, f) + Share(s, id, t, f)
  {
    if id in Holders(s, t) {
      TotalSplit(s.jobs, Holders(s, t), id, f);
    } else {
      assert Holders(s, t) - {id} == Holders(s, t);
    }
  }

  /** A step that moves one job moves each total by that job's share. */
  lemma TotalMoves(s: State, s': State, id: JobId, t: TargetId, f: Field)
    requires SeatsKept(s, s', id)
    ensures Total(s'.jobs, Holders(s', t), f)
         == Total(s.jobs, Holders(s, t), f) - Share(s, id, t, f) + Share(s', id, t, f)
  {
    OtherHoldersKept(s, s', id, t);
    var rest := Holders(s, t) - {id};
    forall x | x in rest
      ensures Weight(f, s.jobs[x]) == Weight(f, s'.jobs[x])
    {
      assert SameSeat(s.jobs[x], s'.jobs[x]);
    }
    TotalFrame(s.jobs, s'.jobs, rest, f);
    TotalWithout(s, id, t, f);
    TotalWithout(s', id, t, f);
  }

  /** Each target field equals the sum over the jobs that hold a reservation there. */
  ghost predicate Balanced(s: State) {
    forall t, f :: CounterAt(s.counters, t, f) == Total(s.jobs, Holders(s, t), f)
  }

  /** The counters move exactly by the share of one job. */
  ghost predicate CountersFollow(s: State, s': State, id: JobId) {
    forall t, f ::
      CounterAt(s'.counters, t, f) == CounterAt(s.counters, t, f) - Share(s, id, t, f) + Share(s', id, t, f)
  }

  lemma BalancedKept(s: State, s': State, id: JobId)
    requires Balanced(s) && SeatsKept(s, s', id) && CountersFollow(s, s', id)
    ensures Balanced(s')
  {
    hide Share, Total, SeatsKept, CounterAt;
    forall t, f
      ensures CounterAt(s'.counters, t, f) == Total(s'.jobs, Holders(s', t), f)
    {
      TotalMoves(s, s', id, t, f);
    }
  }

  lemma ReserveAdds(c: Counters, t: TargetId, j: Job)
    ensures forall t', f ::
              CounterAt(Reserve(c, t, j), t', f) == CounterAt(c, t', f) + if t' == t then Weight(f, j) else 0
  {
    forall t', f
      ensures CounterAt(Reserve(c, t, j), t', f) == CounterAt(c, t', f) + if t' == t then Weight(f, j) else 0
    {
    }
  }

  /** When the counters cover the job, the release is an exact subtraction and the clamp does nothing. */
  lemma ReleaseSubtracts(c: Counters, j: Job)
    requires j.model != ""
    requires j.target.Some? ==> forall f :: CounterAt(c, j.target.value, f) >= Weight(f, j)
    ensures forall t, f ::
              CounterAt(Release(c, j), t, f) == CounterAt(c, t, f) - if j.target == Some(t) then Weight(f, j) else 0
  {
    forall t, f
      ensures CounterAt(Release(c, j), t, f) == CounterAt(c, t, f) - if j.target == Some(t) then Weight(f, j) else 0
    {
      if j.target.Some? {
        var d := Subtract(c, j.target.value, j);
        assert CounterAt(d, t, f) == CounterAt(c, t, f) - if j.target == Some(t) then Weight(f, j) else 0;
        assert CounterAt(ClampUsage(d, j.target.value), t, f) == CounterAt(d, t, f);
      }
    }
  }

  /** A held job's weight is inside its target's counters. */
  lemma HeldIsCovered(s: State, id: JobId)
    requires Balanced(s)
    requires id in s.jobs && Held(s, id)
    ensures forall f :: CounterAt(s.counters, s.jobs[id].target.value, f) >= Weight(f, s.jobs[id])
  {
    forall f
      ensures CounterAt(s.counters, s.jobs[id].target.value, f) >= Weight(f, s.jobs[id])
    {
      TotalSplit(s.jobs, Holders(s, s.jobs[id].target.value), id, f);
    }
  }
}
