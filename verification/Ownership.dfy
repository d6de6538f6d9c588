/** Whose jobs a cancellation can touch. */
module Ownership {
  import opened Common
  import opened RedisLists
  import opened Jobs
  import opened Lifecycle
  import opened Ledger
  import opened Invariant
  import opened Steps
  import opened Runs
  import opened Theorems
  import opened RootChild
  import opened Following

  /** A child belongs to the user of its root. */
  ghost predicate OwnersAgree(s: State) {
    forall c | c in s.jobs && c.ChildOf? && c.parent in s.jobs :: s.jobs[c].user == s.jobs[c.parent].user
  }

  lemma StepOwners(cfg: Config, s: State, e: Event)
    requires Inv(cfg, s) && cfg.Valid() && Allowed(cfg, s, e) && OwnersAgree(s)
    ensures OwnersAgree(Next(cfg, s, e))
  {
    hide Inv, Next;
    var s' := Next(cfg, s, e);
    forall c | c in s'.jobs && c.ChildOf? && c.parent in s'.jobs
      ensures s'.jobs[c].user == s'.jobs[c.parent].user
    {
      if c in s.jobs {
        RootOf(cfg, s, c);
        StepRetries(cfg, s, e, c);
        StepRetries(cfg, s, e, c.parent);
      } else {
        NewIsLive(cfg, s, e, c);
        StepRetries(cfg, s, e, c.parent);
      }
    }
  }

  lemma {:induction false} RunOwners(cfg: Config, s: State, es: seq<Event>)
    requires cfg.Valid() && Inv(cfg, s) && OwnersAgree(s) && Disciplined(cfg, s, es)
    ensures OwnersAgree(After(cfg, s, es))
    decreases |es|
  {
    hide Inv, Next, Allowed, OwnersAgree;
    if es != [] {
      StepKeeps(cfg, s, es[0]);
      StepOwners(cfg, s, es[0]);
      RunOwners(cfg, Next(cfg, s, es[0]), es[1..]);
    }
  }

  /** Cancelling a listed job rewrites its record and its root's, no other. */
  lemma EndTouches(s: State, c: JobId, x: JobId)
    requires c in s.jobs && x in s.jobs && x != c && s.jobs[c].root != Some(x)
    ensures x in MarkCancelled(s, c, None).jobs && MarkCancelled(s, c, None).jobs[x] == s.jobs[x]
  {
    hide Release, DropProcessing, RootAfter;
  }

  /** What a cancellation ends belongs to the user who asked. */
  lemma EndsOwn(cfg: Config, s: State, id: JobId, user: string)
    requires Inv(cfg, s) && OwnersAgree(s) && user != "" && CancelEnds(s, id, user).Some?
    ensures var c := CancelEnds(s, id, user).value;
            && c in s.jobs && s.jobs[c].user == user
            && (s.jobs[c].root.Some? && s.jobs[c].root.value in s.jobs ==> s.jobs[s.jobs[c].root.value].user == user)
  {
    hide Inv, Propagates;
    CancelIs(cfg, s, id, user);
    var c := CancelEnds(s, id, user).value;
    Roots(cfg, s, c);
    Roots(cfg, s, id);
  }

  /**
    In every disciplined run a user's cancellation changes no record of another user, although it
    reaches from a root to its child and back.
  */
  lemma CancelTouchesOwn(cfg: Config, es: seq<Event>, id: JobId, user: string, x: JobId)
    requires cfg.Valid() && Disciplined(cfg, EMPTY, es) && user != ""
    requires x in After(cfg, EMPTY, es).jobs && After(cfg, EMPTY, es).jobs[x].user != user
    ensures var s := After(cfg, EMPTY, es);
            x in Cancel(s, id, user).jobs && Cancel(s, id, user).jobs[x] == s.jobs[x]
  {
    hide Inv, After, Disciplined, Cancel, MarkCancelled, RemoveOne;
    InitialInv(cfg);
    RunKeeps(cfg, EMPTY, es);
    RunOwners(cfg, EMPTY, es);
    var s := After(cfg, EMPTY, es);
    CancelIs(cfg, s, id, user);
    match CancelEnds(s, id, user) {
      case Some(c) =>
        EndsOwn(cfg, s, id, user);
        EndTouches(s.(lists := RemoveOne(s.lists, Home(s.jobs[c]), c)), c, x);
      case None => FlagsOwn(cfg, s, id, user, x);
    }
  }

  lemma FlagsOwn(cfg: Config, s: State, id: JobId, user: string, x: JobId)
    requires Inv(cfg, s) && OwnersAgree(s) && user != "" && x in s.jobs && s.jobs[x].user != user
    requires CancelEnds(s, id, user).None?
    ensures x in Cancel(s, id, user).jobs && Cancel(s, id, user).jobs[x] == s.jobs[x]
  {
    hide Inv, MarkCancelled, RemoveOne;
    if id in s.jobs {
      Roots(cfg, s, id);
      SeatOf(cfg, s, id);
    }
  }
}
