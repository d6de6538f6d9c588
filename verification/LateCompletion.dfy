/**
  A run in which the reaper fails a job whose worker is still busy. A second job takes the freed
  target, and the first worker's late completion takes the second job's share off the counters.
*/
module LateCompletion {
  import opened Common
  import opened RedisLists
  import opened Jobs
  import opened Admission
  import opened Lifecycle
  import opened Ledger
  import opened Invariant
  import opened Steps
  import opened Runs
  import opened Theorems
  import opened Stranded

  const SECOND := Fresh(1)
  const NOBODY := Lists([], [], [], [], [], [])
  const FAILED := R2.(status := Failed, error := Some(DEADLINE_EXCEEDED_ERROR))
  const S1 := R0.(status := Admitted, target := Some("t"), lease := 530, tokens := 2, ram := 922)

  const LATE: seq<Event> := [
    EnqueueJob(ROOT, ROOT_REQUEST),
    TryAdmitJob(ROOT, Pending(Parse, P1), "t", FREE, false, 0),
    ClaimJob("w", ParserPool, "t", None, false, 0),
    ReapJob(ROOT, false, 500),
    EnqueueJob(SECOND, ROOT_REQUEST),
    TryAdmitJob(SECOND, Pending(Parse, P1), "t", FREE, false, 500)
  ]

  lemma ReapLate(s: State)
    requires Shows(s, map[ROOT := R2], Lists([], [], [], [], [ROOT], []), ONE)
    ensures Shows(Next(CFG, s, ReapJob(ROOT, false, 500)), map[ROOT := FAILED], NOBODY, IDLE)
  {
    hide Release, ReadUsage, ReapBranch;
    ReleaseRoot(s.counters, FAILED);
    DeadlinePassed(s);
    assert LRem([ROOT], ROOT) == [];
  }

  lemma DeadlinePassed(s: State)
    requires ROOT in s.jobs && s.jobs[ROOT] == R2
    ensures ReapBranch(CFG, s, ROOT, 500) == FailDeadline
  {
  }

  lemma EnqueueSecond(s: State)
    requires Shows(s, map[ROOT := FAILED], NOBODY, IDLE)
    ensures Shows(Next(CFG, s, EnqueueJob(SECOND, ROOT_REQUEST)), map[ROOT := FAILED][SECOND := R0],
                  Lists([SECOND], [], [], [], [], []), IDLE)
  {
    hide ReadUsage;
    Limit();
    PendingShown(s, NOBODY);
  }

  /** The store before the event at `k`. */
  ghost predicate Reaches(k: nat, s: State) {
    && Inv(CFG, s)
    && match k
       case 3 => Shows(s, map[ROOT := R2], Lists([], [], [], [], [ROOT], []), ONE)
       case 4 => Shows(s, map[ROOT := FAILED], NOBODY, IDLE)
       case 5 => Shows(s, map[ROOT := FAILED][SECOND := R0], Lists([SECOND], [], [], [], [], []), IDLE)
       case 6 => Shows(s, map[ROOT := FAILED][SECOND := S1], Lists([], [], [SECOND], [], [], []), ONE)
       case _ => At(k, s)
  }

  lemma MayReapLate(s: State)
    requires Reaches(3, s)
    ensures Reapable(CFG, s, ROOT, 500)
  {
    assert JobOk(CFG, s, ROOT);
    assert ROOT in ListAt(s.lists, Processing("w"));
  }

  lemma MayDoNext(k: nat, s: State)
    requires k < 6 && Reaches(k, s)
    ensures Allowed(CFG, s, LATE[k])
  {
    hide Inv, ShowsLists;
    if k < 3 {
      MayDo(k, s);
    } else if k == 3 {
      MayReapLate(s);
    }
  }

  lemma DoesNext(k: nat, s: State)
    requires k < 6 && Reaches(k, s)
    ensures Reaches(k + 1, Next(CFG, s, LATE[k]))
  {
    hide Next, Inv, Allowed, ShowsLists;
    MayDoNext(k, s);
    StepKeeps(CFG, s, LATE[k]);
    if k < 3 {
      Does(k, s);
    }
    match k
    case 3 => ReapLate(s);
    case 4 => EnqueueSecond(s);
    case 5 => AdmitAlone(s, SECOND, R0, map[ROOT := FAILED], [], 500);
    case _ =>
  }

  lemma {:induction false} GoesOn(k: nat, s: State)
    requires k <= 6 && Reaches(k, s)
    ensures Disciplined(CFG, s, LATE[k..]) && Reaches(6, After(CFG, s, LATE[k..]))
    decreases 6 - k
  {
    hide Next, Reaches, Allowed;
    if k < 6 {
      MayDoNext(k, s);
      DoesNext(k, s);
      GoesOn(k + 1, Next(CFG, s, LATE[k]));
      assert LATE[k..][1..] == LATE[k + 1..];
    }
  }

  lemma SecondHolds(s: State)
    requires Reaches(6, s)
    ensures SECOND in Holders(s, "t") && ROOT in s.jobs && s.jobs[ROOT] == FAILED && !Held(s, ROOT)
              && !Working(s, ROOT, "w")
  {
    assert JobOk(CFG, s, SECOND);
  }

  /**
    The run keeps the discipline. The late completion, and a late failure just as well, then
    leaves the counters of the target short of what the second job holds.
  */
  lemma LateCompletionBreaks()
    ensures Disciplined(CFG, EMPTY, LATE)
    ensures var s := After(CFG, EMPTY, LATE);
            && Inv(CFG, s) && ROOT in s.jobs && s.jobs[ROOT].status == Failed
            && !Inv(CFG, MarkCompleted(s, ROOT, "late", Some("w")))
            && !Inv(CFG, MarkFailed(s, ROOT, "late", Some("w")))
  {
    hide Next, Allowed, Disciplined, After, ShowsLists, JobOk, Balanced, MarkCompleted, MarkFailed;
    InitialInv(CFG);
    GoesOn(0, EMPTY);
    assert LATE[0..] == LATE;
    var s := After(CFG, EMPTY, LATE);
    SecondHolds(s);
    CompletionExact(CFG, s, ROOT, "late", "w");
  }
}
