/**
  A run in which the reaper re-queues a parser root after its child was created. The root is
  admitted again, the child completes, and the next claim sets the completed root running.
*/
module Stranded {
  import opened Common
  import opened RedisLists
  import opened Jobs
  import opened Admission
  import opened Lifecycle
  import opened Ledger
  import opened Invariant
  import opened Steps
  import opened Runs
  import opened RootChild

  const CFG := Config(
    map["t" := Target(Cpu, 8)], 1, 512, 96, 768, 512, 110, 100, 135, 100, 1, 2, 1, 4, 3072, 4096, 30, 420, 2, 4, 64, 2)

  const ROOT := Fresh(0)
  const CHILD := ChildOf(ROOT)
  const ROOT_REQUEST := Request("u", ParseJob, Parse, None, Cpu, "m", Some(0), 0, 0, 0, 0)
  const CHILD_REQUEST := Request("u", FileChatJob, Chat, None, Cpu, "m", Some(0), 0, 0, 0, 0)
  const FREE := Report({}, 0, 100000, 8, false)

  const EVENTS: seq<Event> := [
    EnqueueJob(ROOT, ROOT_REQUEST),
    TryAdmitJob(ROOT, Pending(Parse, P1), "t", FREE, false, 0),
    ClaimJob("w", ParserPool, "t", None, false, 0),
    CreateChildJob(ROOT, CHILD_REQUEST, true, "w"),
    ReapJob(ROOT, false, 100),
    TryAdmitJob(ROOT, Pending(Parse, P1), "t", FREE, false, 100),
    TryAdmitJob(CHILD, Pending(Chat, P1), "t", FREE, false, 100),
    ClaimJob("v", ClassPool(Chat), "t", None, false, 100),
    CompleteJob(CHILD, "answer", "v")
  ]

  const LAST_CLAIM := ClaimJob("w", ParserPool, "t", None, false, 100)

  // The records the two jobs pass through.
  const R0 := NewJob(CFG, ROOT_REQUEST, 0, None)
  const R1 := R0.(status := Admitted, target := Some("t"), lease := 30, tokens := 2, ram := 922)
  const R2 := R1.(status := Running, worker := Some("w"))
  const R3 := R2.(child := Some(CHILD))
  const R4 := R3.(status := Queued, target := None, worker := None, lease := 0, tokens := 0, ram := 0, retryCount := 1)
  const R5 := R4.(status := Admitted, target := Some("t"), lease := 130, tokens := 2, ram := 922)
  const R6 := R5.(status := Completed, stage := ChildCompleted, result := Some("answer"))
  const R7 := R6.(status := Running, worker := Some("w"))
  const C0 := NewJob(CFG, CHILD_REQUEST, 0, Some(ROOT))
  const C1 := C0.(status := Admitted, target := Some("t"), lease := 130, tokens := 2, ram := 576)
  const C2 := C1.(status := Running, worker := Some("v"))
  const C3 := C2.(status := Completed, result := Some("answer"))

  /** The lists of the run: pending parse and chat, dispatch parser and chat, processing of w and v. */
  datatype Lists = Lists(pp: seq<JobId>, pc: seq<JobId>, dp: seq<JobId>, dc: seq<JobId>, w: seq<JobId>, v: seq<JobId>)

  predicate ShowsLists(s: State, l: Lists) {
    && ListAt(s.lists, Pending(Parse, P1)) == l.pp && ListAt(s.lists, Pending(Chat, P1)) == l.pc
    && ListAt(s.lists, Pending(Siem, P0)) == [] && ListAt(s.lists, Pending(Siem, P2)) == []
    && ListAt(s.lists, Pending(Batch, P3)) == []
    && ListAt(s.lists, Dispatch(ParserPool, "t")) == l.dp && ListAt(s.lists, Dispatch(ClassPool(Chat), "t")) == l.dc
    && ListAt(s.lists, Processing("w")) == l.w && ListAt(s.lists, Processing("v")) == l.v
  }

  predicate Shows(s: State, jobs: map<JobId, Job>, l: Lists, u: Usage) {
    s.jobs == jobs && ShowsLists(s, l) && ReadUsage(s.counters, "t", "m") == u
  }

  const IDLE := Usage(0, 0, 0, 0, 0, 0, 0)
  const ONE := Usage(2, 1, 0, 0, 0, 922, 1)
  const TWO := Usage(4, 2, 2, 0, 0, 1498, 2)

  /** The profile of a small model on the CPU target: two tokens. */
  lemma SmallProfile()
    ensures BuildModelProfile(CFG, Demand(0, 0, 0, 0), Cpu) == Profile(346, 64, 512, 922, 2)
  {
    assert CeilDiv(0, 1048576) == 0;
    assert CeilDiv(256 * 135, 100) == 346;
    assert CeilDiv(922, 512) == 2;
  }

  lemma ColdFits(j: Job)
    requires j.demand == Demand(0, 0, 0, 0) && j.targetKind == Cpu && j.model == "m" && j.cls == Parse
    ensures Evaluate(CFG, j, CFG.targets["t"], IDLE, FREE) == Admit(2, 0, 922)
  {
    SmallProfile();
  }

  lemma WarmFits(j: Job)
    requires j.demand == Demand(0, 0, 0, 0) && j.targetKind == Cpu && j.model == "m" && j.cls == Chat
    ensures Evaluate(CFG, j, CFG.targets["t"], ONE, FREE) == Admit(2, 0, 576)
  {
    SmallProfile();
    assert 95904 / 576 == 166;
    assert TokenGate(CFG, Chat, ONE, 2, 8);
    assert MemoryGate(CFG, j, Cpu, Profile(346, 64, 512, 922, 2), ONE, FREE) == Admit(2, 0, 576);
  }

  lemma PushShown(lists: map<Key, seq<JobId>>, k: Key, id: JobId)
    ensures forall x :: ListAt(RPush(lists, k, id), x) == ListAt(lists, x) + (if x == k then [id] else [])
  {
  }

  lemma RemoveShown(lists: map<Key, seq<JobId>>, k: Key, id: JobId)
    requires ListAt(lists, k) == [id]
    ensures forall x :: ListAt(RemoveOne(lists, k, id), x) == if x == k then [] else ListAt(lists, x)
  {
    assert LRem([id], id) == [];
  }

  lemma PendingShown(s: State, l: Lists)
    requires ShowsLists(s, l)
    ensures PendingTotal(s.lists) == |l.pp| + |l.pc|
  {
    var q := QUEUE_ORDER;
    assert PendingIn(s.lists, q[5..]) == 0;
    assert PendingIn(s.lists, q[4..]) == 0;
    assert PendingIn(s.lists, q[3..]) == 0;
    assert PendingIn(s.lists, q[2..]) == |l.pp|;
    assert PendingIn(s.lists, q[1..]) == |l.pp| + |l.pc|;
    assert q[0..] == q;
  }

  lemma Limit()
    ensures QueueLimit(CFG) >= 64
  {
  }

  lemma EnqueueRoot()
    ensures Shows(Next(CFG, EMPTY, EnqueueJob(ROOT, ROOT_REQUEST)), map[ROOT := R0], Lists([ROOT], [], [], [], [], []),
              IDLE)
  {
    Limit();
    PendingShown(EMPTY, Lists([], [], [], [], [], []));
  }

  /** What an admission that succeeds leaves. */
  lemma AdmitIs(s: State, id: JobId, queue: Key, a: Job, d: Decision, now: int)
    requires id in s.jobs && s.jobs[id].status == Queued && s.jobs[id].targetKind == Cpu && id in ListAt(s.lists, queue)
    requires Decide(CFG, s, s.jobs[id], "t", FREE) == d && d.Admit? && a == AdmittedRecord(CFG, s.jobs[id], "t", d, now)
    ensures Next(CFG, s, TryAdmitJob(id, queue, "t", FREE, false, now))
            == State(s.jobs[id := a], RPush(RemoveOne(s.lists, queue, id), Dispatch(PoolFor(a.cls), "t"), id),
                     Reserve(s.counters, "t", a), s.active[id := a.lease])
  {
    hide Evaluate, Reserve, RPush, RemoveOne, ListAt, ReadUsage, Decide;
  }

  lemma ReserveShown(c: Counters, a: Job)
    requires a.model == "m" && a.tokens == 2 && a.vram == 0
    ensures a.cls == Parse && a.ram == 922 && ReadUsage(c, "t", "m") == IDLE ==>
              ReadUsage(Reserve(c, "t", a), "t", "m") == ONE
    ensures a.cls == Chat && a.ram == 576 && ReadUsage(c, "t", "m") == ONE ==>
              ReadUsage(Reserve(c, "t", a), "t", "m") == TWO
  {
    hide Reserve;
    ReserveAdds(c, "t", a);
  }

  /** A small parse job is admitted to the idle target. */
  lemma AdmitAlone(s: State, id: JobId, j: Job, others: map<JobId, Job>, pc: seq<JobId>, now: int)
    requires id !in others && j.status == Queued && j.cls == Parse && j.priority == P1 && j.targetKind == Cpu
    requires j.model == "m" && j.demand == Demand(0, 0, 0, 0) && j.vram == 0
    requires Shows(s, others[id := j], Lists([id], pc, [], [], [], []), IDLE)
    ensures Shows(Next(CFG, s, TryAdmitJob(id, Pending(Parse, P1), "t", FREE, false, now)),
                  others[id := j.(status := Admitted, target := Some("t"), lease := now + 30, tokens := 2, ram := 922)],
                  Lists([], pc, [id], [], [], []), ONE)
  {
    hide Evaluate, Reserve, RPush, RemoveOne, ListAt, Next, ReadUsage;
    var a := j.(status := Admitted, target := Some("t"), lease := now + 30, tokens := 2, ram := 922);
    ColdFits(j);
    AdmitIs(s, id, Pending(Parse, P1), a, Admit(2, 0, 922), now);
    ReserveShown(s.counters, a);
    RemoveShown(s.lists, Pending(Parse, P1), id);
    PushShown(RemoveOne(s.lists, Pending(Parse, P1), id), Dispatch(ParserPool, "t"), id);
  }

  lemma ClaimRoot(s: State, j: Job, child: map<JobId, Job>, v: seq<JobId>, u: Usage, now: int)
    requires ROOT !in child && j.deadline == 420 && now < 420
    requires Shows(s, child[ROOT := j], Lists([], [], [ROOT], [], [], v), u)
    ensures Shows(Next(CFG, s, ClaimJob("w", ParserPool, "t", None, false, now)),
                  child[ROOT := j.(status := Running, worker := Some("w"), lease := now + 30)],
                  Lists([], [], [], [], [ROOT], v), u)
  {
  }

  lemma CreateTheChild(s: State)
    requires Shows(s, map[ROOT := R2], Lists([], [], [], [], [ROOT], []), ONE)
    ensures Shows(Next(CFG, s, CreateChildJob(ROOT, CHILD_REQUEST, true, "w")),
                  map[ROOT := R3, CHILD := C0], Lists([], [CHILD], [], [], [ROOT], []), ONE)
  {
    Limit();
    PendingShown(s, Lists([], [], [], [], [ROOT], []));
  }

  lemma ReapRoot(s: State)
    requires Shows(s, map[ROOT := R3, CHILD := C0], Lists([], [CHILD], [], [], [ROOT], []), ONE)
    ensures Shows(Next(CFG, s, ReapJob(ROOT, false, 100)),
                  map[ROOT := R4, CHILD := C0], Lists([ROOT], [CHILD], [], [], [], []), IDLE)
  {
    hide Release, ReadUsage, RPush, RemoveOne, ListAt, Next;
    ReleaseRoot(s.counters, R3);
    RootIsRetried(s);
    RemoveShown(s.lists, Processing("w"), ROOT);
    PushShown(RemoveOne(s.lists, Processing("w"), ROOT), Pending(Parse, P1), ROOT);
  }

  lemma RootIsRetried(s: State)
    requires ROOT in s.jobs && s.jobs[ROOT] == R3
    ensures Next(CFG, s, ReapJob(ROOT, false, 100))
            == State(s.jobs[ROOT := R4], RPush(RemoveOne(s.lists, Processing("w"), ROOT), Pending(Parse, P1), ROOT),
                     Release(s.counters, R3), s.active - {ROOT})
  {
    hide Release, RPush, RemoveOne;
    assert ReapBranch(CFG, s, ROOT, 100) == Retry;
  }

  /** Giving back what the root holds leaves the target idle. */
  lemma ReleaseRoot(c: Counters, j: Job)
    requires ReadUsage(c, "t", "m") == ONE
    requires j.target == Some("t") && j.model == "m" && j.cls == Parse && j.tokens == 2 && j.vram == 0 && j.ram == 922
    ensures ReadUsage(Release(c, j), "t", "m") == IDLE
  {
    hide Subtract;
    SubtractRoot(c, j);
  }

  lemma SubtractRoot(c: Counters, j: Job)
    requires ReadUsage(c, "t", "m") == ONE
    requires j.model == "m" && j.cls == Parse && j.tokens == 2 && j.vram == 0 && j.ram == 922
    ensures ReadUsage(Subtract(c, "t", j), "t", "m") == IDLE
  {
  }

  lemma AdmitChild(s: State)
    requires Shows(s, map[ROOT := R5, CHILD := C0], Lists([], [CHILD], [ROOT], [], [], []), ONE)
    ensures Shows(Next(CFG, s, TryAdmitJob(CHILD, Pending(Chat, P1), "t", FREE, false, 100)),
                  map[ROOT := R5, CHILD := C1], Lists([], [], [ROOT], [CHILD], [], []), TWO)
  {
    hide Evaluate, Reserve, RPush, RemoveOne, ListAt, Next, ReadUsage;
    WarmFits(C0);
    AdmitIs(s, CHILD, Pending(Chat, P1), C1, Admit(2, 0, 576), 100);
    ReserveShown(s.counters, C1);
    RemoveShown(s.lists, Pending(Chat, P1), CHILD);
    PushShown(RemoveOne(s.lists, Pending(Chat, P1), CHILD), Dispatch(ClassPool(Chat), "t"), CHILD);
  }

  lemma ClaimChild(s: State)
    requires Shows(s, map[ROOT := R5, CHILD := C1], Lists([], [], [ROOT], [CHILD], [], []), TWO)
    ensures Shows(Next(CFG, s, ClaimJob("v", ClassPool(Chat), "t", None, false, 100)),
                  map[ROOT := R5, CHILD := C2], Lists([], [], [ROOT], [], [], [CHILD]), TWO)
  {
  }

  lemma CompleteChild(s: State)
    requires Shows(s, map[ROOT := R5, CHILD := C2], Lists([], [], [ROOT], [], [], [CHILD]), TWO)
    ensures var s' := Next(CFG, s, CompleteJob(CHILD, "answer", "v"));
            s'.jobs == map[ROOT := R6, CHILD := C3] && ShowsLists(s', Lists([], [], [ROOT], [], [], []))
  {
    hide Release, ReadUsage, RemoveOne, ListAt;
    RemoveShown(s.lists, Processing("v"), CHILD);
  }

  /** The store before the event at `k`. */
  ghost predicate At(k: nat, s: State) {
    && Inv(CFG, s)
    && match k
       case 0 => s == EMPTY
       case 1 => Shows(s, map[ROOT := R0], Lists([ROOT], [], [], [], [], []), IDLE)
       case 2 => Shows(s, map[ROOT := R1], Lists([], [], [ROOT], [], [], []), ONE)
       case 3 => Shows(s, map[ROOT := R2], Lists([], [], [], [], [ROOT], []), ONE)
       case 4 => Shows(s, map[ROOT := R3, CHILD := C0], Lists([], [CHILD], [], [], [ROOT], []), ONE)
       case 5 => Shows(s, map[ROOT := R4, CHILD := C0], Lists([ROOT], [CHILD], [], [], [], []), IDLE)
       case 6 => Shows(s, map[ROOT := R5, CHILD := C0], Lists([], [CHILD], [ROOT], [], [], []), ONE)
       case 7 => Shows(s, map[ROOT := R5, CHILD := C1], Lists([], [], [ROOT], [CHILD], [], []), TWO)
       case 8 => Shows(s, map[ROOT := R5, CHILD := C2], Lists([], [], [ROOT], [], [], [CHILD]), TWO)
       case 9 => s.jobs == map[ROOT := R6, CHILD := C3] && ShowsLists(s, Lists([], [], [ROOT], [], [], []))
       case _ => false
  }

  lemma MayReap(s: State)
    requires At(4, s)
    ensures Reapable(CFG, s, ROOT, 100)
  {
    assert JobOk(CFG, s, ROOT);
    assert ROOT in ListAt(s.lists, Processing("w"));
  }

  lemma MayDo(k: nat, s: State)
    requires k < 9 && At(k, s)
    ensures Allowed(CFG, s, EVENTS[k])
  {
    hide Inv;
    if k == 4 {
      MayReap(s);
    }
  }

  lemma Does(k: nat, s: State)
    requires k < 9 && At(k, s)
    ensures At(k + 1, Next(CFG, s, EVENTS[k]))
  {
    hide Next, Inv, Allowed, ShowsLists;
    MayDo(k, s);
    StepKeeps(CFG, s, EVENTS[k]);
    assert map[][ROOT := R0] == map[ROOT := R0] && map[CHILD := C0][ROOT := R4] == map[ROOT := R4, CHILD := C0];
    assert map[CHILD := C0][ROOT := R5] == map[ROOT := R5, CHILD := C0];
    match k
    case 0 => EnqueueRoot();
    case 1 => AdmitAlone(s, ROOT, R0, map[], [], 0);
    case 2 => ClaimRoot(s, R1, map[], [], ONE, 0);
    case 3 => CreateTheChild(s);
    case 4 => ReapRoot(s);
    case 5 => AdmitAlone(s, ROOT, R4, map[CHILD := C0], [CHILD], 100);
    case 6 => AdmitChild(s);
    case 7 => ClaimChild(s);
    case 8 => CompleteChild(s);
  }

  lemma {:induction false} RunsOn(k: nat, s: State)
    requires k <= 9 && At(k, s)
    ensures Disciplined(CFG, s, EVENTS[k..]) && At(9, After(CFG, s, EVENTS[k..]))
    decreases 9 - k
  {
    hide Next, At, Allowed;
    if k < 9 {
      MayDo(k, s);
      Does(k, s);
      RunsOn(k + 1, Next(CFG, s, EVENTS[k]));
      assert EVENTS[k..][1..] == EVENTS[k + 1..];
    }
  }

  lemma ClaimsAgain(s: State)
    requires At(9, s)
    ensures ROOT in s.jobs && s.jobs[ROOT].status == Completed && ROOT in ListAt(s.lists, Dispatch(ParserPool, "t"))
    ensures Allowed(CFG, s, LAST_CLAIM)
    ensures var s' := Next(CFG, s, LAST_CLAIM);
            && ROOT in s'.jobs && s'.jobs[ROOT].status == Running
            && CHILD in s'.jobs && s'.jobs[CHILD].status == Completed
  {
    hide Inv, Next, ReadUsage;
    assert map[CHILD := C3][ROOT := R6] == map[ROOT := R6, CHILD := C3];
    ClaimRoot(s, R6, map[CHILD := C3], [], ReadUsage(s.counters, "t", "m"), 100);
  }

  /**
    The run keeps the discipline. It leaves the completed root in a dispatch list, and the next
    claim sets it running although its child is completed.
  */
  lemma CompletedRootRunsAgain()
    ensures Disciplined(CFG, EMPTY, EVENTS)
    ensures var s := After(CFG, EMPTY, EVENTS);
            && ROOT in s.jobs && s.jobs[ROOT].status == Completed && ROOT in ListAt(s.lists, Dispatch(ParserPool, "t"))
            && var s' := Next(CFG, s, LAST_CLAIM);
               && Allowed(CFG, s, LAST_CLAIM)
               && ROOT in s'.jobs && s'.jobs[ROOT].status == Running
               && CHILD in s'.jobs && s'.jobs[CHILD].status == Completed
  {
    hide Next, Allowed, Inv, Disciplined, After, ShowsLists;
    InitialInv(CFG);
    RunsOn(0, EMPTY);
    assert EVENTS[0..] == EVENTS;
    ClaimsAgain(After(CFG, EMPTY, EVENTS));
  }
}
