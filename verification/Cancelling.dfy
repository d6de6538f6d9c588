/** What an accepted cancellation leaves, and that it is not forgotten. */
module Cancelling {
  import opened Common
  import opened RedisLists
  import opened Jobs
  import opened Lifecycle
  import opened Ledger
  import opened Invariant
  import opened Steps
  import opened Runs
  import opened Theorems
  import opened RootChild
  import opened Following

  /** `cancel_job` takes the request: the job exists, has not ended, and is the user's own. */
  predicate Accepts(s: State, id: JobId, user: string) {
    id in s.jobs && !s.jobs[id].status.Terminal() && (user == "" || s.jobs[id].user == user)
  }

  /** The job's linked child, while that is live. */
  function LiveChild(s: State, id: JobId): Option<JobId>
    requires id in s.jobs
  {
    var child := s.jobs[id].child;
    if child.Some? && child.value in s.jobs && !s.jobs[child.value].status.Terminal() then child else None
  }

  /** The job is cancelled, with nothing else about it changed, and in no list. */
  ghost predicate CancelledNow(s: State, s': State, id: JobId)
    requires id in s.jobs
  {
    Ended(s', id) && s'.jobs[id] == s.jobs[id].(status := Cancelled)
  }

  /** The record carries the request; nothing else in the store changed. */
  predicate Flagged(s: State, s': State, id: JobId)
    requires id in s.jobs
  {
    s' == s.(jobs := s.jobs[id := s.jobs[id].(cancelRequested := true)])
  }

  lemma ListedCancelled(cfg: Config, s: State, c: JobId)
    requires Inv(cfg, s) && c in s.jobs && s.jobs[c].status in {Queued, Admitted}
    ensures CancelledNow(s, MarkCancelled(s.(lists := RemoveOne(s.lists, Home(s.jobs[c]), c)), c, None), c)
  {
    hide Inv, Finish, Frame, RemoveOne;
    EndListedOk(cfg, s, c);
    Roots(cfg, s, c);
    MarkedRecord(s.(lists := RemoveOne(s.lists, Home(s.jobs[c]), c)), c);
  }

  lemma MarkedRecord(s: State, c: JobId)
    requires c in s.jobs && !s.jobs[c].status.Terminal() && s.jobs[c].root != Some(c)
    ensures c in MarkCancelled(s, c, None).jobs && MarkCancelled(s, c, None).jobs[c] == s.jobs[c].(status := Cancelled)
  {
    hide Release, DropProcessing;
  }

  /**
    Every accepted cancellation leaves its mark. A job that already carries the request stays as it
    is. A queued or admitted job is cancelled and in no list. A running job with a live child is
    cancelled together with a listed child, or passes the request to a running one. Any other
    running job keeps its whole record and carries the request.
  */
  lemma CancelLeaves(cfg: Config, s: State, id: JobId, user: string)
    requires Inv(cfg, s) && Accepts(s, id, user)
    ensures var s' := Cancel(s, id, user);
            var j := s.jobs[id];
            if j.cancelRequested then s' == s
            else if j.status in {Queued, Admitted} then CancelledNow(s, s', id)
            else match LiveChild(s, id)
                 case None => Flagged(s, s', id)
                 case Some(c) =>
                   if s.jobs[c].status in {Queued, Admitted}
                   then CancelledNow(s, s', c) && id in s'.jobs && s'.jobs[id].status == Cancelled
                   else if s.jobs[c].cancelRequested then s' == s else Flagged(s, s', c)
  {
    hide Inv, MarkCancelled, RemoveOne;
    var j := s.jobs[id];
    SeatOf(cfg, s, id);
    if j.status in {Queued, Admitted} {
      ListedCancelled(cfg, s, id);
    } else if LiveChild(s, id).Some? {
      var c := LiveChild(s, id).value;
      SeatOf(cfg, s, c);
      if s.jobs[c].status in {Queued, Admitted} {
        ListedCancelled(cfg, s, c);
        if !j.cancelRequested {
          LinkedTo(cfg, s, id);
          CancelReachesChild(cfg, s, id, user);
        }
      }
    }
  }

  /** A request, once made, is kept by every call, and by every run. */
  lemma {:induction false} RequestStays(cfg: Config, s: State, es: seq<Event>, id: JobId)
    requires cfg.Valid() && id in s.jobs && s.jobs[id].cancelRequested
    ensures id in After(cfg, s, es).jobs && After(cfg, s, es).jobs[id].cancelRequested
    decreases |es|
  {
    hide Next;
    if es != [] {
      StepRetries(cfg, s, es[0], id);
      RequestStays(cfg, Next(cfg, s, es[0]), es[1..], id);
    }
  }

  /** The job, or the child it hands the request to, has ended or carries the request. */
  predicate Marked(s: State, id: JobId) {
    && id in s.jobs
    && (|| s.jobs[id].status.Terminal() || s.jobs[id].cancelRequested
        || (var child := s.jobs[id].child;
            child.Some? && child.value in s.jobs && s.jobs[child.value].cancelRequested))
  }

  /** No accepted cancellation is without effect. */
  lemma CancelMarks(cfg: Config, s: State, id: JobId, user: string)
    requires Inv(cfg, s) && Accepts(s, id, user)
    ensures Marked(Cancel(s, id, user), id)
  {
    hide Inv, Cancel;
    CancelLeaves(cfg, s, id, user);
    if s.jobs[id].child.Some? {
      LinksLive(cfg, s, id);
    }
  }

  lemma LinksLive(cfg: Config, s: State, id: JobId)
    requires Inv(cfg, s) && id in s.jobs && s.jobs[id].child.Some?
    ensures s.jobs[id].child.value in s.jobs && s.jobs[id].child.value != id
  {
    assert JobOk(cfg, s, id);
  }
}
