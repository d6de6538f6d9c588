/** The scheduling pass: candidates in queue order, one target offered to each, admissions counted. */
module Scheduler {
  import opened Common
  import opened RedisLists
  import opened Jobs
  import opened Admission
  import opened Lifecycle
  import opened Ledger
  import opened Invariant
  import opened Steps
  import opened Runs
  import opened Gateway

  // ---------------------------------------------------------------- picking a target

  /** Code-point order on strings. */
  predicate Before(a: string, b: string) {
    b != [] && (a == [] || a[0] < b[0] || (a[0] == b[0] && Before(a[1..], b[1..])))
  }

  lemma {:induction false} BeforeTransitive(a: string, b: string, c: string)
    requires Before(a, b) && Before(b, c)
    ensures Before(a, c)
  {
    if a != [] && a[0] == b[0] == c[0] {
      BeforeTransitive(a[1..], b[1..], c[1..]);
    }
  }

  datatype Score = Score(cold: nat, active: int, negFree: int, id: TargetId)

  /** Tuple order on scores. */
  predicate Better(a: Score, b: Score) {
    || a.cold < b.cold
    || (a.cold == b.cold &&
        (|| a.active < b.active
         || (a.active == b.active &&
             (a.negFree < b.negFree || (a.negFree == b.negFree && Before(a.id, b.id))))))
  }

  lemma BetterTransitive(a: Score, b: Score, c: Score)
    requires Better(a, b) && Better(b, c)
    ensures Better(a, c)
  {
    if a.cold == c.cold && a.active == c.active && a.negFree == c.negFree {
      BeforeTransitive(a.id, b.id, c.id);
    }
  }

  function ScoreOf(c: Counters, j: Job, t: TargetId, r: Report): Score {
    var free := if r.vramFreeMb != 0 then r.vramFreeMb else r.ramFreeMb;
    Score(if j.model in r.warm then 0 else 1, CounterAt(c, t, ActiveJobs), -free, t)
  }

  datatype Offer = Offer(target: TargetId, report: Report)

  predicate Eligible(j: Job, pairs: set<(Pool, TargetId)>, o: Offer) {
    (PoolFor(j.cls), o.target) in pairs
  }

  predicate HasOffer(j: Job, offers: seq<Offer>, pairs: set<(Pool, TargetId)>) {
    exists o :: o in offers && Eligible(j, pairs, o)
  }

  /** An eligible offer that no eligible offer beats, with the usage of the moment. */
  predicate BestOffer(c: Counters, j: Job, offers: seq<Offer>, pairs: set<(Pool, TargetId)>, best: Offer) {
    && best in offers && Eligible(j, pairs, best)
    && forall o | o in offers && Eligible(j, pairs, o) ::
         !Better(ScoreOf(c, j, o.target, o.report), ScoreOf(c, j, best.target, best.report))
  }

  /** What a target reports free: video memory, or main memory where there is none. */
  function FreeOf(r: Report): int {
    if r.vramFreeMb == 0 then r.ramFreeMb else r.vramFreeMb
  }

  /** Where the two differ first, the best offer is warm, or runs fewer jobs, or has more free, or is named first. */
  predicate Preferred(c: Counters, j: Job, best: Offer, o: Offer) {
    var warm, other := j.model in best.report.warm, j.model in o.report.warm;
    var runs, others := CounterAt(c, best.target, ActiveJobs), CounterAt(c, o.target, ActiveJobs);
    if warm != other then warm
    else if runs != others then runs < others
    else if FreeOf(best.report) != FreeOf(o.report) then FreeOf(best.report) > FreeOf(o.report)
    else best.target == o.target || Before(best.target, o.target)
  }

  lemma {:induction false} BeforeTotal(a: string, b: string)
    ensures (a == b || Before(a, b)) <==> !Before(b, a)
  {
    if a != [] && b != [] && a[0] == b[0] {
      BeforeTotal(a[1..], b[1..]);
      assert a == [a[0]] + a[1..] && b == [b[0]] + b[1..];
    }
    if a == b {
      NotBeforeItself(a);
    }
  }

  /** The best offers are those preferred to every eligible one. */
  lemma BestIsPreferred(c: Counters, j: Job, offers: seq<Offer>, pairs: set<(Pool, TargetId)>, best: Offer)
    requires best in offers && Eligible(j, pairs, best)
    ensures BestOffer(c, j, offers, pairs, best)
            <==> forall o | o in offers && Eligible(j, pairs, o) :: Preferred(c, j, best, o)
  {
    hide Before, Eligible;
    forall o
      ensures Preferred(c, j, best, o)
              <==> !Better(ScoreOf(c, j, o.target, o.report), ScoreOf(c, j, best.target, best.report))
    {
      BeforeTotal(best.target, o.target);
    }
  }

  /** `pick_target`: the eligible target with the least score, if there is an eligible one. */
  method PickTarget(c: Counters, j: Job, offers: seq<Offer>, pairs: set<(Pool, TargetId)>) returns (best: Option<Offer>)
    ensures best.None? <==> forall o | o in offers :: !Eligible(j, pairs, o)
    ensures best.Some? ==> BestOffer(c, j, offers, pairs, best.value)
  {
    best := None;
    for i := 0 to |offers|
      invariant best.None? <==> forall o | o in offers[..i] :: !Eligible(j, pairs, o)
      invariant best.Some? ==> best.value in offers[..i] && Eligible(j, pairs, best.value)
      invariant best.Some? ==> forall o | o in offers[..i] && Eligible(j, pairs, o) ::
                  !Better(ScoreOf(c, j, o.target, o.report), ScoreOf(c, j, best.value.target, best.value.report))
    {
      var o := offers[i];
      assert offers[..i + 1] == offers[..i] + [o];
      if Eligible(j, pairs, o) {
        var score := ScoreOf(c, j, o.target, o.report);
        if best.None? || Better(score, ScoreOf(c, j, best.value.target, best.value.report)) {
          if best.Some? {
            var was := ScoreOf(c, j, best.value.target, best.value.report);
            forall p | p in offers[..i] && Eligible(j, pairs, p)
              ensures !Better(ScoreOf(c, j, p.target, p.report), score)
            {
              if Better(ScoreOf(c, j, p.target, p.report), score) {
                BetterTransitive(ScoreOf(c, j, p.target, p.report), score, was);
              }
            }
          }
          NotBetterThanItself(score);
          best := Some(o);
        }
      }
    }
    assert offers[..|offers|] == offers;
  }

  lemma NotBetterThanItself(a: Score)
    ensures !Better(a, a)
  {
    NotBeforeItself(a.id);
  }

  lemma {:induction false} NotBeforeItself(a: string)
    ensures !Before(a, a)
  {
    if a != [] {
      NotBeforeItself(a[1..]);
    }
  }

  // ---------------------------------------------------------------- candidates

  datatype Candidate = Candidate(queue: Key, id: JobId)

  /** The queued ids among some ids of one queue, in order. */
  function QueuedAmong(jobs: map<JobId, Job>, queue: Key, ids: seq<JobId>): seq<Candidate> {
    if ids == [] then []
    else (if ids[0] in jobs && jobs[ids[0]].status == Queued then [Candidate(queue, ids[0])] else [])
         + QueuedAmong(jobs, queue, ids[1..])
  }

  /** The first `depth` ids of a queue; Redis reads one id even for a depth of 0. */
  function Scan(lists: map<Key, seq<JobId>>, queue: Key, depth: nat): seq<JobId> {
    var n: nat := Max(depth, 1);
    if |ListAt(lists, queue)| <= n then ListAt(lists, queue) else ListAt(lists, queue)[..n]
  }

  function CandidatesIn(s: State, queues: seq<Key>, depth: nat): seq<Candidate> {
    if queues == [] then []
    else QueuedAmong(s.jobs, queues[0], Scan(s.lists, queues[0], depth)) + CandidatesIn(s, queues[1..], depth)
  }

  lemma {:induction false} QueuedAmongStep(jobs: map<JobId, Job>, queue: Key, ids: seq<JobId>, i: nat)
    requires i < |ids|
    ensures QueuedAmong(jobs, queue, ids[..i + 1])
         == QueuedAmong(jobs, queue, ids[..i])
            + if ids[i] in jobs && jobs[ids[i]].status == Queued then [Candidate(queue, ids[i])] else []
  {
    if i > 0 {
      QueuedAmongStep(jobs, queue, ids[1..], i - 1);
      assert ids[..i + 1][1..] == ids[1..][..i] && ids[..i][1..] == ids[1..][..i - 1];
    }
  }

  lemma {:induction false} CandidatesStep(s: State, queues: seq<Key>, depth: nat, i: nat)
    requires i < |queues|
    ensures CandidatesIn(s, queues[..i + 1], depth)
         == CandidatesIn(s, queues[..i], depth) + QueuedAmong(s.jobs, queues[i], Scan(s.lists, queues[i], depth))
  {
    if i > 0 {
      CandidatesStep(s, queues[1..], depth, i - 1);
      assert queues[..i + 1][1..] == queues[1..][..i] && queues[..i][1..] == queues[1..][..i - 1];
    }
  }

  /** `list_pending_candidates`. */
  method ListPendingCandidates(g: LLMGateway, depth: nat) returns (out: seq<Candidate>)
    ensures out == CandidatesIn(g.View(), QUEUE_ORDER, depth)
  {
    out := [];
    for q := 0 to |QUEUE_ORDER|
      invariant out == CandidatesIn(g.View(), QUEUE_ORDER[..q], depth)
    {
      var queue := QUEUE_ORDER[q];
      var ids := Scan(g.lists, queue, depth);
      var found: seq<Candidate> := [];
      for i := 0 to |ids|
        invariant found == QueuedAmong(g.jobs, queue, ids[..i])
      {
        QueuedAmongStep(g.jobs, queue, ids, i);
        if ids[i] in g.jobs && g.jobs[ids[i]].status == Queued {
          found := found + [Candidate(queue, ids[i])];
        }
      }
      assert ids[..|ids|] == ids;
      CandidatesStep(g.View(), QUEUE_ORDER, depth, q);
      out := out + found;
    }
    assert QUEUE_ORDER[..|QUEUE_ORDER|] == QUEUE_ORDER;
  }

  /** Every candidate is a queued job met in its queue. */
  lemma {:induction false} CandidatesAreQueued(s: State, queues: seq<Key>, depth: nat, c: Candidate)
    requires c in CandidatesIn(s, queues, depth)
    ensures c.queue in queues && c.id in ListAt(s.lists, c.queue) && c.id in s.jobs && s.jobs[c.id].status == Queued
  {
    if c in QueuedAmong(s.jobs, queues[0], Scan(s.lists, queues[0], depth)) {
      QueuedAmongIsQueued(s.jobs, queues[0], Scan(s.lists, queues[0], depth), c);
    } else {
      CandidatesAreQueued(s, queues[1..], depth, c);
    }
  }

  lemma {:induction false} QueuedAmongIsQueued(jobs: map<JobId, Job>, queue: Key, ids: seq<JobId>, c: Candidate)
    requires c in QueuedAmong(jobs, queue, ids)
    ensures c.queue == queue && c.id in ids && c.id in jobs && jobs[c.id].status == Queued
  {
    if c != Candidate(queue, ids[0]) || ids[0] !in jobs || jobs[ids[0]].status != Queued {
      QueuedAmongIsQueued(jobs, queue, ids[1..], c);
    }
  }

  /** The queued jobs among the first ids of a queue are all candidates, and no others are. */
  lemma {:induction false} CandidatesComplete(s: State, queues: seq<Key>, depth: nat, c: Candidate)
    ensures c in CandidatesIn(s, queues, depth)
            <==> && c.queue in queues && c.id in s.jobs && s.jobs[c.id].status == Queued
                 && exists p: nat :: p < |ListAt(s.lists, c.queue)| && p < Max(depth, 1)
                                     && ListAt(s.lists, c.queue)[p] == c.id
    decreases |queues|
  {
    hide ListAt;
    if queues != [] {
      QueuedAmongAll(s.jobs, queues[0], Scan(s.lists, queues[0], depth), c);
      CandidatesComplete(s, queues[1..], depth, c);
      ScannedAt(s.lists, queues[0], depth, c.id);
    }
  }

  lemma ScannedAt(lists: map<Key, seq<JobId>>, queue: Key, depth: nat, id: JobId)
    ensures id in Scan(lists, queue, depth)
            <==> exists p: nat :: p < |ListAt(lists, queue)| && p < Max(depth, 1) && ListAt(lists, queue)[p] == id
  {
    hide ListAt;
    var ids := Scan(lists, queue, depth);
    assert forall p: nat | p < |ids| :: ids[p] == ListAt(lists, queue)[p];
  }

  lemma {:induction false} QueuedAmongAll(jobs: map<JobId, Job>, queue: Key, ids: seq<JobId>, c: Candidate)
    ensures c in QueuedAmong(jobs, queue, ids)
            <==> c.queue == queue && c.id in ids && c.id in jobs && jobs[c.id].status == Queued
    decreases |ids|
  {
    if ids != [] {
      QueuedAmongAll(jobs, queue, ids[1..], c);
    }
  }

  lemma {:induction false} QueuedAt(jobs: map<JobId, Job>, queue: Key, ids: seq<JobId>, i: nat) returns (p: nat)
    requires i < |QueuedAmong(jobs, queue, ids)|
    ensures p < |ids| && QueuedAmong(jobs, queue, ids)[i] == Candidate(queue, ids[p])
    decreases |ids|
  {
    var here := |QueuedAmong(jobs, queue, ids)| - |QueuedAmong(jobs, queue, ids[1..])|;
    if i < here {
      p := 0;
    } else {
      p := QueuedAt(jobs, queue, ids[1..], i - here);
      p := p + 1;
    }
  }

  lemma {:induction false} QueuedInOrder(jobs: map<JobId, Job>, queue: Key, ids: seq<JobId>, i: nat, k: nat)
    returns (p: nat, q: nat)
    requires i < k < |QueuedAmong(jobs, queue, ids)|
    ensures p < q < |ids|
    ensures QueuedAmong(jobs, queue, ids)[i] == Candidate(queue, ids[p])
    ensures QueuedAmong(jobs, queue, ids)[k] == Candidate(queue, ids[q])
    decreases |ids|
  {
    var here := |QueuedAmong(jobs, queue, ids)| - |QueuedAmong(jobs, queue, ids[1..])|;
    if i < here {
      p := 0;
      q := QueuedAt(jobs, queue, ids[1..], k - here);
    } else {
      p, q := QueuedInOrder(jobs, queue, ids[1..], i - here, k - here);
      p := p + 1;
    }
    q := q + 1;
  }

  /** Candidates come by queue, and within a queue by age. */
  lemma {:induction false} CandidatesByQueue(s: State, queues: seq<Key>, depth: nat, i: nat, k: nat)
    returns (a: nat, b: nat, p: nat, q: nat)
    requires i < k < |CandidatesIn(s, queues, depth)|
    ensures var c, d := CandidatesIn(s, queues, depth)[i], CandidatesIn(s, queues, depth)[k];
            && a <= b < |queues| && c.queue == queues[a] && d.queue == queues[b]
            && (a == b ==> p < q < |ListAt(s.lists, queues[a])|
                           && ListAt(s.lists, queues[a])[p] == c.id && ListAt(s.lists, queues[a])[q] == d.id)
    decreases |queues|
  {
    hide ListAt, QueuedAmong;
    var ids := Scan(s.lists, queues[0], depth);
    var here := QueuedAmong(s.jobs, queues[0], ids);
    var rest := CandidatesIn(s, queues[1..], depth);
    a, b, p, q := 0, 0, 0, 0;
    if i >= |here| {
      a, b, p, q := CandidatesByQueue(s, queues[1..], depth, i - |here|, k - |here|);
      a, b := a + 1, b + 1;
    } else if k < |here| {
      p, q := QueuedInOrder(s.jobs, queues[0], ids, i, k);
    } else {
      p := QueuedAt(s.jobs, queues[0], ids, i);
      CandidatesAreQueued(s, queues[1..], depth, rest[k - |here|]);
      b :| 0 <= b < |queues[1..]| && queues[1..][b] == rest[k - |here|].queue;
      b := b + 1;
    }
  }

  function Urgency(p: Priority): nat {
    match p
    case P0 => 0
    case P1 => 1
    case P2 => 2
    case P3 => 3
  }

  /**
    More urgent candidates come first, chat before parsing where both are as urgent, and within a
    queue the one that was pushed earlier.
  */
  lemma UrgentFirst(s: State, depth: nat, i: nat, k: nat) returns (p: nat, q: nat)
    requires i < k < |CandidatesIn(s, QUEUE_ORDER, depth)|
    ensures var c, d := CandidatesIn(s, QUEUE_ORDER, depth)[i], CandidatesIn(s, QUEUE_ORDER, depth)[k];
            && c.queue.Pending? && d.queue.Pending?
            && (|| Urgency(c.queue.priority) < Urgency(d.queue.priority)
                || (c.queue == Pending(Chat, P1) && d.queue == Pending(Parse, P1))
                || (c.queue == d.queue && p < q < |ListAt(s.lists, c.queue)|
                    && ListAt(s.lists, c.queue)[p] == c.id && ListAt(s.lists, c.queue)[q] == d.id))
  {
    hide ListAt, CandidatesIn;
    var a, b;
    a, b, p, q := CandidatesByQueue(s, QUEUE_ORDER, depth, i, k);
  }

  // ---------------------------------------------------------------- one pass

  /** The event is an admission that succeeds. */
  ghost function AdmitsJob(cfg: Config): (State, Event) -> bool
    requires cfg.Valid()
  {
    (s: State, e: Event) =>
      e.TryAdmitJob? && e.target in cfg.targets && Admits(cfg, s, e.id, e.queue, e.target, e.report, e.gpuWorkers)
  }

  /** The attempt made for a candidate: the best offer in the store met at that moment. */
  predicate Attempt(s: State, j: Job, c: Candidate, offers: seq<Offer>, pairs: set<(Pool, TargetId)>,
                    gpuWorkers: bool, now: int, e: Event)
  {
    && e.TryAdmitJob? && e.id == c.id && e.queue == c.queue && e.gpuWorkers == gpuWorkers && e.now == now
    && BestOffer(s.counters, j, offers, pairs, Offer(e.target, e.report))
  }

  /**
    The events are one attempt for each candidate that has an eligible offer, in candidate order,
    and nothing else. Candidates are judged by the records that were listed.
  */
  ghost predicate OnePass(cfg: Config, s: State, listed: map<JobId, Job>, cs: seq<Candidate>, offers: seq<Offer>,
                          pairs: set<(Pool, TargetId)>, gpuWorkers: bool, now: int, trace: seq<Event>)
    requires cfg.Valid() && forall c | c in cs :: c.id in listed
    decreases |cs|
  {
    if cs == [] then trace == []
    else if !HasOffer(listed[cs[0].id], offers, pairs) then
      OnePass(cfg, s, listed, cs[1..], offers, pairs, gpuWorkers, now, trace)
    else
      && trace != []
      && Attempt(s, listed[cs[0].id], cs[0], offers, pairs, gpuWorkers, now, trace[0])
      && OnePass(cfg, Next(cfg, s, trace[0]), listed, cs[1..], offers, pairs, gpuWorkers, now, trace[1..])
  }

  lemma {:induction false} PassSkips(cfg: Config, s: State, listed: map<JobId, Job>, cs: seq<Candidate>, c: Candidate,
                                     offers: seq<Offer>, pairs: set<(Pool, TargetId)>, gpuWorkers: bool, now: int,
                                     trace: seq<Event>)
    requires cfg.Valid() && (forall x | x in cs :: x.id in listed) && c.id in listed
    requires OnePass(cfg, s, listed, cs, offers, pairs, gpuWorkers, now, trace)
    requires !HasOffer(listed[c.id], offers, pairs)
    ensures OnePass(cfg, s, listed, cs + [c], offers, pairs, gpuWorkers, now, trace)
    decreases |cs|
  {
    hide Next, HasOffer, Attempt;
    if cs == [] {
      assert (cs + [c])[1..] == [];
    } else {
      assert (cs + [c])[0] == cs[0] && (cs + [c])[1..] == cs[1..] + [c];
      if HasOffer(listed[cs[0].id], offers, pairs) {
        PassSkips(cfg, Next(cfg, s, trace[0]), listed, cs[1..], c, offers, pairs, gpuWorkers, now, trace[1..]);
      } else {
        PassSkips(cfg, s, listed, cs[1..], c, offers, pairs, gpuWorkers, now, trace);
      }
    }
  }

  lemma {:induction false} PassGoesOn(cfg: Config, s: State, listed: map<JobId, Job>, cs: seq<Candidate>, c: Candidate,
                                      offers: seq<Offer>, pairs: set<(Pool, TargetId)>, gpuWorkers: bool, now: int,
                                      trace: seq<Event>, e: Event)
    requires cfg.Valid() && (forall x | x in cs :: x.id in listed) && c.id in listed
    requires OnePass(cfg, s, listed, cs, offers, pairs, gpuWorkers, now, trace)
    requires HasOffer(listed[c.id], offers, pairs)
    requires Attempt(After(cfg, s, trace), listed[c.id], c, offers, pairs, gpuWorkers, now, e)
    ensures OnePass(cfg, s, listed, cs + [c], offers, pairs, gpuWorkers, now, trace + [e])
    decreases |cs|
  {
    hide Next, HasOffer, Attempt;
    if cs == [] {
      assert (cs + [c])[1..] == [] && trace + [e] == [e] && (trace + [e])[1..] == [];
    } else {
      assert (cs + [c])[0] == cs[0] && (cs + [c])[1..] == cs[1..] + [c];
      if HasOffer(listed[cs[0].id], offers, pairs) {
        assert (trace + [e])[0] == trace[0] && (trace + [e])[1..] == trace[1..] + [e];
        PassGoesOn(cfg, Next(cfg, s, trace[0]), listed, cs[1..], c, offers, pairs, gpuWorkers, now, trace[1..], e);
      } else {
        PassGoesOn(cfg, s, listed, cs[1..], c, offers, pairs, gpuWorkers, now, trace, e);
      }
    }
  }

  /** Candidates have a record when they are listed. */
  lemma CandidatesListed(s: State, depth: nat)
    ensures forall c | c in CandidatesIn(s, QUEUE_ORDER, depth) :: c.id in s.jobs
  {
    forall c | c in CandidatesIn(s, QUEUE_ORDER, depth)
      ensures c.id in s.jobs
    {
      CandidatesAreQueued(s, QUEUE_ORDER, depth, c);
    }
  }

  /**
    `schedule_once`: exactly one attempt for each candidate that has an eligible target, at the
    best target of the moment, with the number of successes returned. The pass keeps the invariant
    whatever it started from.
  */
  method ScheduleOnce(g: LLMGateway, offers: seq<Offer>, pairs: set<(Pool, TargetId)>, depth: nat, gpuWorkers: bool,
      now: int)
    returns (admitted: nat, ghost trace: seq<Event>)
    requires g.cfg.Valid()
    requires forall o | o in offers :: o.target in g.cfg.targets
    modifies g
    ensures forall c | c in CandidatesIn(old(g.View()), QUEUE_ORDER, depth) :: c.id in old(g.jobs)
    ensures OnePass(g.cfg, old(g.View()), old(g.jobs), CandidatesIn(old(g.View()), QUEUE_ORDER, depth), offers, pairs,
                    gpuWorkers, now, trace)
    ensures g.View() == After(g.cfg, old(g.View()), trace)
    ensures Disciplined(g.cfg, old(g.View()), trace)
    ensures admitted == CountIn(g.cfg, old(g.View()), trace, AdmitsJob(g.cfg))
    ensures old(Inv(g.cfg, g.View())) ==> Inv(g.cfg, g.View())
  {
    hide Inv, Next, TryAdmit, Admits, CandidatesIn, BestOffer, HasOffer, OnePass;
    ghost var start := g.View();
    admitted, trace := 0, [];
    var candidates := ListPendingCandidates(g, depth);
    var listed := g.jobs;
    CandidatesListed(start, depth);
    PassStarts(g.cfg, start, listed, offers, pairs, gpuWorkers, now);
    for i := 0 to |candidates|
      invariant OnePass(g.cfg, start, listed, candidates[..i], offers, pairs, gpuWorkers, now, trace)
      invariant g.View() == After(g.cfg, start, trace)
      invariant Disciplined(g.cfg, start, trace)
      invariant admitted == CountIn(g.cfg, start, trace, AdmitsJob(g.cfg))
    {
      var c := candidates[i];
      assert candidates[..i + 1] == candidates[..i] + [c];
      var target := PickTarget(g.counters, listed[c.id], offers, pairs);
      Picked(g.counters, listed[c.id], offers, pairs, target);
      if target.None? {
        PassSkips(g.cfg, start, listed, candidates[..i], c, offers, pairs, gpuWorkers, now, trace);
        continue;
      }
      ghost var before := g.View();
      ghost var e := Event.TryAdmitJob(c.id, c.queue, target.value.target, target.value.report, gpuWorkers, now);
      var done := g.TryAdmitJob(c.id, c.queue, target.value.target, target.value.report, gpuWorkers, now);
      NextAdmit(g.cfg, before, e);
      PassGoesOn(g.cfg, start, listed, candidates[..i], c, offers, pairs, gpuWorkers, now, trace, e);
      AfterAppend(g.cfg, start, trace, e);
      CountAppend(g.cfg, start, trace, e, AdmitsJob(g.cfg));
      trace := trace + [e];
      if done {
        admitted := admitted + 1;
      }
    }
    assert candidates[..|candidates|] == candidates;
    if Inv(g.cfg, start) {
      RunKeeps(g.cfg, start, trace);
    }
  }

  lemma PassStarts(cfg: Config, s: State, listed: map<JobId, Job>, offers: seq<Offer>, pairs: set<(Pool, TargetId)>,
                   gpuWorkers: bool, now: int)
    requires cfg.Valid()
    ensures OnePass(cfg, s, listed, [], offers, pairs, gpuWorkers, now, [])
  {
  }

  lemma Picked(c: Counters, j: Job, offers: seq<Offer>, pairs: set<(Pool, TargetId)>, best: Option<Offer>)
    requires best.None? <==> forall o | o in offers :: !Eligible(j, pairs, o)
    requires best.Some? ==> BestOffer(c, j, offers, pairs, best.value)
    ensures best.Some? <==> HasOffer(j, offers, pairs)
    ensures best.Some? ==> Offer(best.value.target, best.value.report) == best.value
  {
  }

  lemma NextAdmit(cfg: Config, s: State, e: Event)
    requires cfg.Valid() && e.TryAdmitJob? && e.target in cfg.targets
    ensures Next(cfg, s, e) == TryAdmit(cfg, s, e.id, e.queue, e.target, e.report, e.gpuWorkers, e.now)
    ensures Allowed(cfg, s, e)
  {
  }
}
