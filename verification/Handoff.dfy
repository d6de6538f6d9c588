/**
  The hand-off from a parser root to its child, step by step, for any number of workers that
  process the same root at once, crash anywhere, and race with every other writer of the root.
  Each step is one read or write of the store; a lock dies with its holder.
*/
module Handoff {
  import opened Common
  import opened Jobs

  /** What of the root record the hand-off reads. */
  datatype Root = Root(link: Option<JobId>, ended: bool, cancel: bool)

  /** Where a worker stands in `_process_parser_job`; the record copies it carries may be stale. */
  datatype Pc =
    | Idle
    | Copied(copy: Root)                // first read of the job
    | LinkLocked(copy: Root)            // inside get_linked_child_job_id
    | LinkRead(copy: Root, seen: Root)
    | Unlinked(copy: Root)              // it found no child: the documents are parsed
    | Saved                             // the prepared record was written from the first copy
    | CreateLocked                      // inside enqueue_child_job_once
    | CreateRead                        // no link, not ended, not cancelled
    | SawNoChild                        // the derived id has no record
    | Creating                          // enqueue_job looked again and its gates are passed
    | ChildThere                        // the child is written or was found
    | LinkKnown(seen: Root)             // the root was read again
    | HasChild(child: JobId)            // the lock is released
    | Parking(child: JobId, seen: Root) // inside mark_job_waiting_on_child
    | Done
    | Crashed

  datatype System = System(
    id: JobId,
    root: Root,
    children: set<JobId>,   // records whose root_job_id is the root
    pushes: nat,            // how often a child record was written and queued
    lock: Option<nat>,
    workers: map<nat, Pc>)

  datatype Step =
    | Spawn(w: nat)                     // a worker claims the root
    | Go(w: nat, refused: bool)         // its next read or write; `refused` is the outcome of a gate
    | Crash(w: nat)
    | Write(root: Root)                 // any other call rewrites the root record

  /** The pcs at which a worker holds the root's lock. */
  predicate Holding(pc: Pc) {
    pc.LinkLocked? || pc.LinkRead? || pc.CreateLocked? || pc.CreateRead? || pc.SawNoChild? || pc.Creating?
    || pc.ChildThere? || pc.LinkKnown?
  }

  function Free(lock: Option<nat>, w: nat): Option<nat> {
    if lock == Some(w) then None else lock
  }

  function At(s: System, w: nat, pc: Pc): System {
    s.(workers := s.workers[w := pc])
  }

  /** One step of one worker. */
  function Advance(s: System, w: nat, refused: bool): System
    requires w in s.workers
  {
    var child := ChildOf(s.id);
    match s.workers[w]
    case Idle => At(s, w, Copied(s.root))
    case Copied(copy) => if s.lock.None? then At(s.(lock := Some(w)), w, LinkLocked(copy)) else s
    case LinkLocked(copy) => At(s, w, LinkRead(copy, s.root))
    case LinkRead(copy, seen) =>
      var s' := s.(lock := Free(s.lock, w));
      if seen.link.Some? then
        if seen.link.value in s.children then At(s', w, HasChild(seen.link.value)) else At(s', w, Done)
      else if child in s.children then At(s'.(root := seen.(link := Some(child))), w, HasChild(child))
      else At(s', w, Unlinked(copy))
    case Unlinked(copy) => if refused then At(s, w, Done) else At(s.(root := copy), w, Saved)
    case Saved =>
      if s.root.ended || s.root.cancel then At(s, w, Done)
      else if s.lock.None? then At(s.(lock := Some(w)), w, CreateLocked)
      else s
    case CreateLocked =>
      var s' := s.(lock := Free(s.lock, w));
      if s.root.link.Some? then
        if s.root.link.value in s.children then At(s', w, HasChild(s.root.link.value)) else At(s', w, Done)
      else if s.root.ended || s.root.cancel then At(s', w, Done)
      else At(s, w, CreateRead)
    case CreateRead => if child in s.children then At(s, w, ChildThere) else At(s, w, SawNoChild)
    case SawNoChild =>
      if refused then At(s.(lock := Free(s.lock, w)), w, Done)
      else if child in s.children then At(s, w, ChildThere)
      else At(s, w, Creating)
    case Creating => At(s.(children := s.children + {child}, pushes := s.pushes + 1), w, ChildThere)
    case ChildThere => At(s, w, LinkKnown(s.root))
    case LinkKnown(seen) => At(s.(root := seen.(link := Some(child)), lock := Free(s.lock, w)), w, HasChild(child))
    case HasChild(c) => At(s, w, Parking(c, s.root))
    case Parking(c, seen) => At(s.(root := seen.(link := Some(c))), w, Done)
    case Done => s
    case Crashed => s
  }

  function Next(s: System, step: Step): System {
    match step
    case Spawn(w) => if w in s.workers then s else At(s, w, Idle)
    case Go(w, refused) => if w in s.workers then Advance(s, w, refused) else s
    case Crash(w) =>
      if w in s.workers && !s.workers[w].Done? then At(s.(lock := Free(s.lock, w)), w, Crashed) else s
    case Write(root) => s.(root := root)
  }

  /** Other writers may undo or repeat each other, but none invents a link. */
  predicate Fair(s: System, step: Step) {
    step.Write? && step.root.link.Some? ==> step.root.link.value == ChildOf(s.id) && ChildOf(s.id) in s.children
  }

  function After(s: System, steps: seq<Step>): System
    decreases |steps|
  {
    if steps == [] then s else After(Next(s, steps[0]), steps[1..])
  }

  predicate FairRun(s: System, steps: seq<Step>)
    decreases |steps|
  {
    steps == [] || (Fair(s, steps[0]) && FairRun(Next(s, steps[0]), steps[1..]))
  }

  function Start(id: JobId): System {
    System(id, Root(None, false, false), {}, 0, None, map[])
  }

  // ---------------------------------------------------------------- invariant

  predicate GoodLink(s: System, r: Root) {
    r.link.Some? ==> r.link.value == ChildOf(s.id) && ChildOf(s.id) in s.children
  }

  /** What a worker at a pc knows. */
  predicate Knows(s: System, w: nat, pc: Pc) {
    && (Holding(pc) ==> s.lock == Some(w))
    && (pc.Copied? || pc.LinkLocked? || pc.LinkRead? || pc.Unlinked? ==> GoodLink(s, pc.copy))
    && (pc.LinkRead? || pc.LinkKnown? || pc.Parking? ==> GoodLink(s, pc.seen))
    && (pc.Creating? ==> ChildOf(s.id) !in s.children)
    && (pc.ChildThere? || pc.LinkKnown? ==> ChildOf(s.id) in s.children)
    && (pc.HasChild? || pc.Parking? ==> pc.child == ChildOf(s.id) && ChildOf(s.id) in s.children)
  }

  ghost predicate Inv(s: System) {
    && s.children <= {ChildOf(s.id)}
    && s.pushes == (if ChildOf(s.id) in s.children then 1 else 0)
    && GoodLink(s, s.root)
    && (s.lock.Some? ==> s.lock.value in s.workers && Holding(s.workers[s.lock.value]))
    && (forall w {:trigger Knows(s, w, s.workers[w])} | w in s.workers :: Knows(s, w, s.workers[w]))
  }

  /** The other workers keep what they know: only the lock holder writes a child. */
  lemma OthersKnow(s: System, s': System, w: nat, x: nat)
    requires Inv(s) && x in s.workers && x != w && s'.id == s.id
    requires s.children <= s'.children
    requires s'.children != s.children ==> s.lock == Some(w)
    requires s'.lock == s.lock || s.lock == Some(w) || s.lock.None?
    ensures Knows(s', x, s.workers[x])
  {
    assert Knows(s, x, s.workers[x]);
  }

  /** A worker's own step touches no other worker. */
  lemma AdvanceOne(s: System, w: nat, refused: bool)
    requires w in s.workers
    ensures var s' := Advance(s, w, refused);
            && s'.id == s.id && s'.workers.Keys == s.workers.Keys && s.children <= s'.children
            && (forall x | x in s.workers && x != w :: s'.workers[x] == s.workers[x])
  {
  }

  /** It writes a child only under the lock, and takes and frees the lock as its pc says. */
  lemma AdvanceLock(s: System, w: nat, refused: bool)
    requires w in s.workers && (Holding(s.workers[w]) <==> s.lock == Some(w))
    ensures var s' := Advance(s, w, refused);
            && w in s'.workers
            && (s'.children != s.children ==> s.lock == Some(w))
            && (s'.lock == s.lock || s.lock == Some(w) || s.lock.None?)
            && (s'.lock.Some? && s'.lock.value == w <==> Holding(s'.workers[w]))
            && (s'.lock.Some? && s'.lock.value != w ==> s'.lock == s.lock)
  {
  }

  /** A worker's own step touches no other worker, and moves the lock only when it may. */
  lemma AdvanceAlone(s: System, w: nat, refused: bool)
    requires Inv(s) && w in s.workers
    ensures var s' := Advance(s, w, refused);
            && s'.id == s.id && s'.workers.Keys == s.workers.Keys
            && (forall x | x in s.workers && x != w :: s'.workers[x] == s.workers[x])
            && s.children <= s'.children
            && (s'.children != s.children ==> s.lock == Some(w))
            && (s'.lock == s.lock || s.lock == Some(w) || s.lock.None?)
            && (s'.lock.Some? && s'.lock.value == w <==> Holding(s'.workers[w]))
            && (s'.lock.Some? && s'.lock.value != w ==> s'.lock == s.lock)
  {
    hide Advance, GoodLink;
    assert Knows(s, w, s.workers[w]);
    AdvanceOne(s, w, refused);
    AdvanceLock(s, w, refused);
  }

  /** What a worker's step leaves: the shared facts, and for the worker what its new pc needs. */
  ghost predicate Kept(s: System, s': System, w: nat) {
    && s'.id == s.id && s'.children <= {ChildOf(s.id)}
    && s'.pushes == (if ChildOf(s.id) in s'.children then 1 else 0)
    && GoodLink(s', s'.root)
    && w in s'.workers && Knows(s', w, s'.workers[w])
  }

  /** The steps of `get_linked_child_job_id` and of the prepared save. */
  lemma LookKeeps(s: System, w: nat, refused: bool)
    requires Inv(s) && w in s.workers
    requires s.workers[w].Idle? || s.workers[w].Copied? || s.workers[w].LinkLocked? || s.workers[w].LinkRead?
             || s.workers[w].Unlinked?
    ensures Kept(s, Advance(s, w, refused), w)
  {
    assert Knows(s, w, s.workers[w]);
  }

  /** The steps of `enqueue_child_job_once`. */
  lemma CreateKeeps(s: System, w: nat, refused: bool)
    requires Inv(s) && w in s.workers
    requires s.workers[w].Saved? || s.workers[w].CreateLocked? || s.workers[w].CreateRead? || s.workers[w].SawNoChild?
             || s.workers[w].Creating?
    ensures Kept(s, Advance(s, w, refused), w)
  {
    assert Knows(s, w, s.workers[w]);
  }

  /** Linking and parking. */
  lemma LinkKeeps(s: System, w: nat, refused: bool)
    requires Inv(s) && w in s.workers
    requires s.workers[w].ChildThere? || s.workers[w].LinkKnown? || s.workers[w].HasChild? || s.workers[w].Parking?
             || s.workers[w].Done? || s.workers[w].Crashed?
    ensures Kept(s, Advance(s, w, refused), w)
  {
    assert Knows(s, w, s.workers[w]);
  }

  lemma AdvanceKeeps(s: System, w: nat, refused: bool)
    requires Inv(s) && w in s.workers
    ensures Kept(s, Advance(s, w, refused), w)
  {
    hide Advance, Inv, Kept;
    match s.workers[w] {
      case Idle | Copied(_) | LinkLocked(_) | LinkRead(_, _) | Unlinked(_) => LookKeeps(s, w, refused);
      case Saved | CreateLocked | CreateRead | SawNoChild | Creating => CreateKeeps(s, w, refused);
      case _ => LinkKeeps(s, w, refused);
    }
  }

  lemma StepKeeps(s: System, step: Step)
    requires Inv(s) && Fair(s, step)
    ensures Inv(Next(s, step))
  {
    hide Advance;
    var s' := Next(s, step);
    if step.Go? && step.w in s.workers {
      AdvanceKeeps(s, step.w, step.refused);
      AdvanceAlone(s, step.w, step.refused);
    }
    forall x | x in s'.workers
      ensures Knows(s', x, s'.workers[x])
    {
      if x in s.workers {
        assert Knows(s, x, s.workers[x]);
        if !step.Write? && x != step.w {
          OthersKnow(s, s', step.w, x);
        }
      }
    }
  }

  lemma {:induction false} RunKeeps(s: System, steps: seq<Step>)
    requires Inv(s) && FairRun(s, steps)
    ensures Inv(After(s, steps))
    decreases |steps|
  {
    hide Inv, Next, Fair;
    if steps != [] {
      StepKeeps(s, steps[0]);
      RunKeeps(Next(s, steps[0]), steps[1..]);
    }
  }

  /**
    Child created once: whatever the workers and the other writers do, and wherever workers crash,
    at most one child is ever written and queued for a root, it has the derived id, and every link
    the root carries or a worker reports is to it.
  */
  lemma ChildCreatedOnce(id: JobId, steps: seq<Step>)
    requires FairRun(Start(id), steps)
    ensures var s := After(Start(id), steps);
            && s.id == id
            && s.pushes <= 1
            && s.children <= {ChildOf(id)}
            && (s.root.link.Some? ==> s.root.link.value == ChildOf(id) && s.children == {ChildOf(id)} && s.pushes == 1)
            && (forall w | w in s.workers && s.workers[w].HasChild? :: s.workers[w].child == ChildOf(id))
  {
    RunKeeps(Start(id), steps);
    SameId(Start(id), steps);
    var s := After(Start(id), steps);
    forall w | w in s.workers && s.workers[w].HasChild?
      ensures s.workers[w].child == ChildOf(id)
    {
      assert Knows(s, w, s.workers[w]);
    }
  }

  lemma {:induction false} SameId(s: System, steps: seq<Step>)
    ensures After(s, steps).id == s.id
    decreases |steps|
  {
    if steps != [] {
      SameId(Next(s, steps[0]), steps[1..]);
    }
  }

  /**
    A retry finishes an interrupted hand-off: a worker that died after writing the child and before
    saving the link leaves a child that the next worker links without writing another.
  */
  lemma RetryLinksOrphan(s: System, w: nat)
    requires Inv(s) && w !in s.workers && s.lock.None?
    requires ChildOf(s.id) in s.children && s.root.link.None?
    ensures var s' := After(s, [Spawn(w), Go(w, false), Go(w, false), Go(w, false), Go(w, false)]);
            && s'.root == s.root.(link := Some(ChildOf(s.id)))
            && s'.pushes == s.pushes
            && w in s'.workers && s'.workers[w] == HasChild(ChildOf(s.id))
            && s'.lock.None?
  {
    var s1 := Next(s, Spawn(w));
    var s2 := Next(s1, Go(w, false));
    var s3 := Next(s2, Go(w, false));
    var s4 := Next(s3, Go(w, false));
    var s5 := Next(s4, Go(w, false));
    var g := Go(w, false);
    assert After(s4, [g]) == s5 by { assert [g][1..] == []; }
    assert After(s3, [g, g]) == s5 by { assert [g, g][1..] == [g]; }
    assert After(s2, [g, g, g]) == s5 by { assert [g, g, g][1..] == [g, g]; }
    assert After(s1, [g, g, g, g]) == s5 by { assert [g, g, g, g][1..] == [g, g, g]; }
    assert [Spawn(w), g, g, g, g][1..] == [g, g, g, g];
  }

  // ---------------------------------------------------------------- cancellations that get lost

  /** Other writers keep an accepted cancellation. */
  predicate KeepsCancel(steps: seq<Step>) {
    forall i | 0 <= i < |steps| :: steps[i].Write? ==> steps[i].root.cancel
  }

  /**
    The worker carries a copy of the root without the cancellation that it can still write back:
    the copy taken before parsing as long as no child is found, or the one it links with.
  */
  predicate Stale(s: System, pc: Pc) {
    match pc
    case Copied(copy) => !copy.cancel && ChildOf(s.id) !in s.children
    case LinkLocked(copy) => !copy.cancel && ChildOf(s.id) !in s.children
    case LinkRead(copy, seen) =>
      seen.link.None? && if ChildOf(s.id) in s.children then !seen.cancel else !copy.cancel
    case Unlinked(copy) => !copy.cancel
    case LinkKnown(seen) => !seen.cancel
    case Parking(_, seen) => !seen.cancel
    case _ => false
  }

  ghost predicate NoneStale(s: System) {
    forall w {:trigger Stale(s, s.workers[w])} | w in s.workers :: !Stale(s, s.workers[w])
  }

  /** With no stale copy around, one step keeps the cancellation and makes no stale copy. */
  lemma StepKeepsCancel(s: System, step: Step)
    requires Inv(s) && Fair(s, step) && s.root.cancel && NoneStale(s) && (step.Write? ==> step.root.cancel)
    ensures Next(s, step).root.cancel && NoneStale(Next(s, step))
  {
    hide Inv, Advance, Knows, Holding, GoodLink;
    var s' := Next(s, step);
    if step.Go? && step.w in s.workers {
      OwnKeepsCancel(s, step.w, step.refused);
      AdvanceAlone(s, step.w, step.refused);
    }
    forall x | x in s'.workers
      ensures !Stale(s', s'.workers[x])
    {
      if x in s.workers && (step.Write? || x != step.w) {
        OtherStays(s, s', x);
      }
    }
  }

  lemma OwnKeepsCancel(s: System, w: nat, refused: bool)
    requires Inv(s) && w in s.workers && s.root.cancel && !Stale(s, s.workers[w])
    ensures var s' := Advance(s, w, refused);
            s'.root.cancel && w in s'.workers && !Stale(s', s'.workers[w])
  {
    hide Holding;
    assert Knows(s, w, s.workers[w]);
  }

  /** Nobody else's step makes a copy stale: children only appear, and not under another's lock. */
  lemma OtherStays(s: System, s': System, x: nat)
    requires Inv(s) && x in s.workers && !Stale(s, s.workers[x])
    requires x in s'.workers && s'.workers[x] == s.workers[x] && s'.id == s.id && s.children <= s'.children
    requires s'.children != s.children ==> s.lock.Some? && s.lock.value != x
    ensures !Stale(s', s'.workers[x])
  {
    assert Knows(s, x, s.workers[x]);
  }

  lemma {:induction false} RunKeepsCancel(s: System, steps: seq<Step>)
    requires Inv(s) && FairRun(s, steps) && s.root.cancel && NoneStale(s) && KeepsCancel(steps)
    ensures After(s, steps).root.cancel
    decreases |steps|
  {
    hide Inv, Next, Fair, NoneStale;
    if steps != [] {
      assert steps[0].Write? ==> steps[0].root.cancel;
      StepKeeps(s, steps[0]);
      StepKeepsCancel(s, steps[0]);
      RunKeepsCancel(Next(s, steps[0]), steps[1..]);
    }
  }

  lemma Prepend(s: System, step: Step, rest: seq<Step>)
    requires !step.Write? && FairRun(Next(s, step), rest) && KeepsCancel(rest)
    ensures FairRun(s, [step] + rest) && KeepsCancel([step] + rest)
    ensures After(s, [step] + rest) == After(Next(s, step), rest)
  {
    hide Next;
    assert ([step] + rest)[1..] == rest;
  }

  /** The write itself. */
  lemma EraseNow(s: System, w: nat) returns (steps: seq<Step>)
    requires w in s.workers && Stale(s, s.workers[w])
    requires s.workers[w].Unlinked? || s.workers[w].LinkKnown? || s.workers[w].Parking?
             || (s.workers[w].LinkRead? && ChildOf(s.id) in s.children)
    ensures FairRun(s, steps) && KeepsCancel(steps) && !After(s, steps).root.cancel
  {
    Prepend(s, Go(w, false), []);
    steps := [Go(w, false)] + [];
  }

  lemma EraseFromRead(s: System, w: nat) returns (steps: seq<Step>)
    requires w in s.workers && s.workers[w].LinkRead? && Stale(s, s.workers[w])
    ensures FairRun(s, steps) && KeepsCancel(steps) && !After(s, steps).root.cancel
  {
    if ChildOf(s.id) in s.children {
      steps := EraseNow(s, w);
    } else {
      var rest := EraseNow(Next(s, Go(w, false)), w);
      Prepend(s, Go(w, false), rest);
      steps := [Go(w, false)] + rest;
    }
  }

  lemma EraseFromLocked(s: System, w: nat) returns (steps: seq<Step>)
    requires GoodLink(s, s.root) && w in s.workers && s.workers[w].LinkLocked? && Stale(s, s.workers[w])
    ensures FairRun(s, steps) && KeepsCancel(steps) && !After(s, steps).root.cancel
  {
    var rest := EraseFromRead(Next(s, Go(w, false)), w);
    Prepend(s, Go(w, false), rest);
    steps := [Go(w, false)] + rest;
  }

  lemma EraseFromCopied(s: System, w: nat) returns (steps: seq<Step>)
    requires Inv(s) && w in s.workers && s.workers[w].Copied? && Stale(s, s.workers[w])
    ensures FairRun(s, steps) && KeepsCancel(steps) && !After(s, steps).root.cancel
    decreases s.lock.Some?
  {
    if s.lock.None? {
      var rest := EraseFromLocked(Next(s, Go(w, false)), w);
      Prepend(s, Go(w, false), rest);
      steps := [Go(w, false)] + rest;
    } else {
      var die := Crash(s.lock.value);
      StepKeeps(s, die);
      var rest := EraseFromCopied(Next(s, die), w);
      Prepend(s, die, rest);
      steps := [die] + rest;
    }
  }

  /** A stale copy can be written back: the run that does it. */
  lemma EraseRun(s: System, w: nat) returns (steps: seq<Step>)
    requires Inv(s) && w in s.workers && Stale(s, s.workers[w])
    ensures FairRun(s, steps) && KeepsCancel(steps) && !After(s, steps).root.cancel
  {
    match s.workers[w] {
      case Copied(_) => steps := EraseFromCopied(s, w);
      case LinkLocked(_) => steps := EraseFromLocked(s, w);
      case LinkRead(_, _) => steps := EraseFromRead(s, w);
      case _ => steps := EraseNow(s, w);
    }
  }

  /** Whatever follows, as long as the other writers keep it, the cancellation stays. */
  ghost predicate CancelSafe(s: System) {
    forall steps {:trigger After(s, steps)} | FairRun(s, steps) && KeepsCancel(steps) :: After(s, steps).root.cancel
  }

  /**
    An accepted cancellation is safe exactly when no worker carries a copy of the root without it
    that it can still write back.
  */
  lemma CancelSurvivesExactly(s: System)
    requires Inv(s) && s.root.cancel
    ensures CancelSafe(s) <==> NoneStale(s)
  {
    hide Inv, FairRun, After, KeepsCancel, Stale;
    if NoneStale(s) {
      forall steps | FairRun(s, steps) && KeepsCancel(steps)
        ensures After(s, steps).root.cancel
      {
        RunKeepsCancel(s, steps);
      }
    } else {
      var w :| w in s.workers && Stale(s, s.workers[w]);
      var steps := EraseRun(s, w);
    }
  }

  /** A worker takes its next `n` steps. */
  function Goes(w: nat, n: nat): seq<Step> { seq(n, _ => Go(w, false)) }

  lemma OneGo(s: System, w: nat, n: nat)
    requires n > 0
    ensures After(s, Goes(w, n)) == After(Next(s, Go(w, false)), Goes(w, n - 1))
    ensures FairRun(Next(s, Go(w, false)), Goes(w, n - 1)) ==> FairRun(s, Goes(w, n))
  {
    assert Goes(w, n)[1..] == Goes(w, n - 1);
  }

  lemma NoGo(s: System, w: nat)
    ensures After(s, Goes(w, 0)) == s && FairRun(s, Goes(w, 0))
  {
  }

  lemma {:induction false} AfterConcat(s: System, a: seq<Step>, b: seq<Step>)
    ensures After(s, a + b) == After(After(s, a), b)
    ensures FairRun(s, a) && FairRun(After(s, a), b) ==> FairRun(s, a + b)
    decreases |a|
  {
    hide Next, Fair;
    if a == [] {
      assert a + b == b;
    } else {
      assert (a + b)[0] == a[0] && (a + b)[1..] == a[1..] + b;
      AfterConcat(Next(s, a[0]), a[1..], b);
    }
  }

  /** A worker that starts on an untouched root looks, finds no child, and goes on to parse. */
  lemma Looks(s: System)
    requires 0 in s.workers && s.workers[0] == Idle && s.lock.None? && s.children == {}
              && s.root == Root(None, false, false)
    ensures var s' := After(s, Goes(0, 4));
            && FairRun(s, Goes(0, 4))
            && s' == s.(workers := s'.workers) && 0 in s'.workers && s'.workers[0] == Unlinked(s.root)
  {
    hide After, FairRun, Goes;
    var s1 := Next(s, Go(0, false));
    var s2 := Next(s1, Go(0, false));
    var s3 := Next(s2, Go(0, false));
    var s4 := Next(s3, Go(0, false));
    OneGo(s, 0, 4);
    OneGo(s1, 0, 3);
    OneGo(s2, 0, 2);
    OneGo(s3, 0, 1);
    NoGo(s4, 0);
  }

  /** The prepared save, up to the look for a child. */
  lemma Saves(s: System)
    requires 0 in s.workers && s.workers[0] == Unlinked(Root(None, false, false)) && s.lock.None? && s.children == {}
    ensures var s' := After(s, Goes(0, 4));
            && FairRun(s, Goes(0, 4))
            && s'.id == s.id && s'.root == Root(None, false, false) && s'.pushes == s.pushes && s'.children == {}
            && 0 in s'.workers && s'.workers[0] == SawNoChild
  {
    hide After, FairRun, Goes;
    var s1 := Next(s, Go(0, false));
    var s2 := Next(s1, Go(0, false));
    var s3 := Next(s2, Go(0, false));
    OneGo(s, 0, 4);
    OneGo(s1, 0, 3);
    OneGo(s2, 0, 2);
    OneGo(s3, 0, 1);
    NoGo(Next(s3, Go(0, false)), 0);
  }

  /** The child is written and linked. */
  lemma Creates(s: System)
    requires 0 in s.workers && s.workers[0] == SawNoChild && s.children == {} && s.root == Root(None, false, false)
    ensures var s' := After(s, Goes(0, 4));
            && FairRun(s, Goes(0, 4))
            && s'.root == Root(Some(ChildOf(s.id)), false, false) && s'.pushes == s.pushes + 1
            && s'.children == {ChildOf(s.id)}
  {
    hide After, FairRun, Goes;
    var s1 := Next(s, Go(0, false));
    var s2 := Next(s1, Go(0, false));
    var s3 := Next(s2, Go(0, false));
    OneGo(s, 0, 4);
    OneGo(s1, 0, 3);
    OneGo(s2, 0, 2);
    OneGo(s3, 0, 1);
    NoGo(Next(s3, Go(0, false)), 0);
  }

  lemma HandsOff(s: System)
    requires 0 in s.workers && s.workers[0] == Unlinked(Root(None, false, false)) && s.lock.None? && s.children == {}
    ensures var s' := After(s, Goes(0, 8));
            && FairRun(s, Goes(0, 8))
            && s'.root == Root(Some(ChildOf(s.id)), false, false) && s'.pushes == s.pushes + 1
            && s'.children == {ChildOf(s.id)}
  {
    hide After, FairRun;
    assert Goes(0, 4) + Goes(0, 4) == Goes(0, 8);
    hide Goes;
    Saves(s);
    Creates(After(s, Goes(0, 4)));
    AfterConcat(s, Goes(0, 4), Goes(0, 4));
  }

  /** A worker looks; a cancellation is accepted; the worker saves its copy and hands off. */
  const LOST_CANCEL: seq<Step> := [Spawn(0)] + Goes(0, 4) + ([Write(Root(None, false, true))] + Goes(0, 8))

  /**
    From the start, for every root: the accepted cancellation is gone and the child is written,
    queued and linked all the same.
  */
  lemma CancelLost(id: JobId)
    ensures FairRun(Start(id), LOST_CANCEL)
    ensures var before := After(Start(id), [Spawn(0)] + Goes(0, 4) + [Write(Root(None, false, true))]);
            before.root.cancel && before.pushes == 0
    ensures var s := After(Start(id), LOST_CANCEL);
            && !s.root.cancel && s.pushes == 1 && s.children == {ChildOf(id)} && s.root.link == Some(ChildOf(id))
  {
    hide Goes, After, FairRun, Next, Fair;
    var write := Write(Root(None, false, true));
    var looked := [Spawn(0)] + Goes(0, 4);
    Accepted(id);
    var s2 := After(Start(id), looked);
    OneStep(s2, write);
    AfterConcat(Start(id), looked, [write]);
    HandsOff(Next(s2, write));
    AfterConcat(s2, [write], Goes(0, 8));
    AfterConcat(Start(id), looked, [write] + Goes(0, 8));
  }

  lemma OneStep(s: System, step: Step)
    ensures After(s, [step]) == Next(s, step) && (Fair(s, step) ==> FairRun(s, [step]))
  {
    assert [step][1..] == [];
  }

  lemma Accepted(id: JobId)
    ensures var looked := [Spawn(0)] + Goes(0, 4);
            var s := After(Start(id), looked);
            var s' := Next(s, Write(Root(None, false, true)));
            && FairRun(Start(id), looked) && s.id == id && Fair(s, Write(Root(None, false, true)))
            && s' == s.(root := Root(None, false, true)) && s.pushes == 0
            && s.lock.None? && s.children == {} && 0 in s.workers && s.workers[0] == Unlinked(Root(None, false, false))
  {
    hide Goes, After, FairRun;
    OneStep(Start(id), Spawn(0));
    Looks(Next(Start(id), Spawn(0)));
    AfterConcat(Start(id), [Spawn(0)], Goes(0, 4));
  }
}
