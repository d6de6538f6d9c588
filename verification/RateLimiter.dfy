/** The sliding-window rate limiter. */
module RateLimiter {
  import opened Common

  /** Scores of the attempts kept per subject, and when each key expires. Times are in milliseconds. */
  datatype Limiter = Limiter(marks: map<string, seq<nat>>, expires: map<string, int>)

  datatype Call = Call(subject: string, now: nat)

  /** The times after `cut`. */
  function After(times: seq<nat>, cut: int): seq<nat> {
    if times == [] then []
    else After(times[..|times| - 1], cut) + if times[|times| - 1] > cut then [times[|times| - 1]] else []
  }

  /** The marks of a subject whose key has not expired. */
  function Live(l: Limiter, subject: string, now: nat): seq<nat> {
    if subject in l.marks && subject in l.expires && now < l.expires[subject] then l.marks[subject] else []
  }

  /** The marks after a check: the attempt is added, then what left the window is removed. */
  function Marks(l: Limiter, window: int, c: Call): seq<nat> {
    After(Live(l, c.subject, c.now) + [c.now], c.now - window)
  }

  function Checked(l: Limiter, window: int, c: Call): Limiter {
    Limiter(l.marks[c.subject := Marks(l, window, c)], l.expires[c.subject := c.now + window])
  }

  class AsyncRateLimiter {
    const maxRequests: int
    const window: int
    var marks: map<string, seq<nat>>
    var expires: map<string, int>

    constructor (maxRequests: int, window: int)
      ensures this.maxRequests == maxRequests && this.window == window && State() == Limiter(map[], map[])
    {
      this.maxRequests := maxRequests;
      this.window := window;
      marks := map[];
      expires := map[];
    }

    function State(): Limiter
      reads this
    {
      Limiter(marks, expires)
    }

    method Check(subject: string, now: nat) returns (accepted: bool)
      modifies this
      ensures State() == Checked(old(State()), window, Call(subject, now))
      ensures accepted == (|Marks(old(State()), window, Call(subject, now))| <= maxRequests)
    {
      hide After;
      var kept: seq<nat> := [];
      if subject in marks && subject in expires && now < expires[subject] {
        kept := marks[subject];
      }
      kept := kept + [now];
      kept := After(kept, now - window);
      var count := |kept|;
      marks := marks[subject := kept];
      expires := expires[subject := now + window];
      accepted := count <= maxRequests;
    }
  }

  // ---------------------------------------------------------------- runs

  predicate Clocked(calls: seq<Call>) { forall i, j | 0 <= i < j < |calls| :: calls[i].now <= calls[j].now }

  function Run(calls: seq<Call>, window: int): Limiter {
    if calls == [] then Limiter(map[], map[])
    else Checked(Run(calls[..|calls| - 1], window), window, calls[|calls| - 1])
  }

  /** Whether the last of some calls is accepted. */
  predicate Accepts(calls: seq<Call>, max: int, window: int)
    requires calls != []
  {
    |Marks(Run(calls[..|calls| - 1], window), window, calls[|calls| - 1])| <= max
  }

  /** Every attempt of a subject, never forgotten. */
  function Log(calls: seq<Call>, subject: string): seq<nat> {
    if calls == [] then []
    else
      var last := calls[|calls| - 1];
      Log(calls[..|calls| - 1], subject) + if last.subject == subject then [last.now] else []
  }

  lemma AfterAppend(times: seq<nat>, t: nat, cut: int)
    ensures After(times + [t], cut) == After(times, cut) + if t > cut then [t] else []
  {
    assert (times + [t])[..|times|] == times;
  }

  lemma {:induction false} AfterAfter(times: seq<nat>, early: int, late: int)
    requires early <= late
    ensures After(After(times, early), late) == After(times, late)
  {
    if times != [] {
      var n := |times| - 1;
      AfterAfter(times[..n], early, late);
      AfterAppend(After(times[..n], early), times[n], late);
      assert After(times[..n], early) + [] == After(times[..n], early);
    }
  }

  lemma {:induction false} AfterNone(times: seq<nat>, cut: int)
    requires forall i | 0 <= i < |times| :: times[i] <= cut
    ensures After(times, cut) == []
  {
    if times != [] {
      AfterNone(times[..|times| - 1], cut);
    }
  }

  lemma {:induction false} LogBefore(calls: seq<Call>, subject: string, now: nat)
    requires forall i | 0 <= i < |calls| :: calls[i].now <= now
    ensures forall i | 0 <= i < |Log(calls, subject)| :: Log(calls, subject)[i] <= now
  {
    if calls != [] {
      LogBefore(calls[..|calls| - 1], subject, now);
    }
  }

  /** What is kept of a subject shows the same window as its whole log, expired or not. */
  lemma {:induction false} KeptIsLog(calls: seq<Call>, window: int, subject: string, now: nat)
    requires Clocked(calls) && forall i | 0 <= i < |calls| :: calls[i].now <= now
    ensures After(Live(Run(calls, window), subject, now), now - window) == After(Log(calls, subject), now - window)
    decreases |calls|
  {
    hide After;
    if calls == [] {
      return;
    }
    var before, c := calls[..|calls| - 1], calls[|calls| - 1];
    var l := Run(before, window);
    if c.subject != subject {
      KeptIsLog(before, window, subject, now);
      assert Log(before, subject) + [] == Log(before, subject);
      assert Live(Run(calls, window), subject, now) == Live(l, subject, now);
    } else if now >= c.now + window {
      LogBefore(calls, subject, c.now);
      AfterNone(Log(calls, subject), now - window);
      AfterNone([], now - window);
    } else {
      KeptIsLog(before, window, subject, c.now);
      var live, log := Live(l, subject, c.now), Log(before, subject);
      AfterAfter(live, c.now - window, now - window);
      AfterAfter(log, c.now - window, now - window);
      AfterAfter(live + [c.now], c.now - window, now - window);
      AfterAppend(live, c.now, now - window);
      AfterAppend(log, c.now, now - window);
    }
  }

  /**
    With a clock that does not run back, a call is accepted exactly when its window, itself
    included, holds at most the limit of attempts of the subject, however long ago keys expired.
  */
  lemma AcceptedExactly(calls: seq<Call>, max: int, window: int)
    requires calls != [] && Clocked(calls)
    ensures var c := calls[|calls| - 1];
            Accepts(calls, max, window) <==> |After(Log(calls, c.subject), c.now - window)| <= max
  {
    hide After;
    var before, c := calls[..|calls| - 1], calls[|calls| - 1];
    var live, log := Live(Run(before, window), c.subject, c.now), Log(before, c.subject);
    KeptIsLog(before, window, c.subject, c.now);
    AfterAppend(live, c.now, c.now - window);
    AfterAppend(log, c.now, c.now - window);
  }

  /** Fewer earlier attempts than the limit in the window: accepted. */
  lemma AcceptedWhenFew(calls: seq<Call>, max: int, window: int)
    requires calls != [] && Clocked(calls)
    requires var c := calls[|calls| - 1];
             |After(Log(calls[..|calls| - 1], c.subject), c.now - window)| < max
    ensures Accepts(calls, max, window)
  {
    hide After;
    var before, c := calls[..|calls| - 1], calls[|calls| - 1];
    AcceptedExactly(calls, max, window);
    AfterAppend(Log(before, c.subject), c.now, c.now - window);
  }

  /** Accepted calls of a subject in the window after `start`. */
  function AcceptedIn(calls: seq<Call>, max: int, window: int, subject: string, start: int): nat {
    if calls == [] then 0
    else
      var c := calls[|calls| - 1];
      AcceptedIn(calls[..|calls| - 1], max, window, subject, start)
      + if c.subject == subject && start < c.now <= start + window && Accepts(calls, max, window) then 1 else 0
  }

  lemma {:induction false} AcceptedAreLogged(calls: seq<Call>, max: int, window: int, subject: string, start: int,
      cut: int)
    requires cut <= start
    ensures AcceptedIn(calls, max, window, subject, start) <= |After(Log(calls, subject), cut)|
    decreases |calls|
  {
    hide After, Accepts;
    if calls != [] {
      var before, c := calls[..|calls| - 1], calls[|calls| - 1];
      AcceptedAreLogged(before, max, window, subject, start, cut);
      AfterAppend(Log(before, subject), c.now, cut);
      assert Log(before, subject) + [] == Log(before, subject);
    }
  }

  /** Every window of the given length holds at most the limit of accepted calls per subject. */
  lemma {:induction false} WindowBounded(calls: seq<Call>, max: int, window: int, subject: string, start: int)
    requires Clocked(calls)
    ensures AcceptedIn(calls, max, window, subject, start) <= Max(0, max)
    decreases |calls|
  {
    hide After, Accepts;
    if calls != [] {
      var before, c := calls[..|calls| - 1], calls[|calls| - 1];
      WindowBounded(before, max, window, subject, start);
      if c.subject == subject && start < c.now <= start + window && Accepts(calls, max, window) {
        AcceptedExactly(calls, max, window);
        AcceptedAreLogged(calls, max, window, subject, start, c.now - window);
      }
    }
  }
}
