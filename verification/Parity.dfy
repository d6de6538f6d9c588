/** Comparing Redis with the database, serving reads from either, and migrating. */
module Parity {
  import opened Common
  import opened Text
  import opened Conversations
  import opened Chats
  import opened DualWrite
  import opened Mirror

  datatype Status = Matched | MissingInDb | MissingInSource | ContentMismatch | EmptyThread

  function Stripped(s: seq<Entry>): (r: seq<Entry>)
    ensures |r| == |s| && forall i | 0 <= i < |s| :: r[i] == Entry(Strip(s[i].role), Strip(s[i].content))
  {
    if s == [] then [] else [Entry(Strip(s[0].role), Strip(s[0].content))] + Stripped(s[1..])
  }

  /** `compare_history_snapshot_to_messages`. */
  function Compare(source: seq<Entry>, db: seq<Entry>): Status {
    if source == [] && db == [] then EmptyThread
    else if db == [] then MissingInDb
    else if source == [] then MissingInSource
    else if Stripped(source) == Stripped(db) then Matched
    else ContentMismatch
  }

  // ---------------------------------------------------------------- reads

  /**
    `resolve_thread_messages_for_read_response`: `cutover` is the read flag; `db` is missing when
    the store is absent or the read fails.
  */
  function Served(cutover: bool, redis: seq<Entry>, db: Option<seq<Entry>>): seq<Entry> {
    if !cutover || db.None? then redis
    else if Compare(redis, db.value) in {Matched, EmptyThread} then db.value
    else redis
  }

  /** Whatever the flag and whatever the database holds, the reader sees the Redis history up to stripping. */
  lemma ServedIsRedis(cutover: bool, redis: seq<Entry>, db: Option<seq<Entry>>)
    ensures Stripped(Served(cutover, redis, db)) == Stripped(redis)
  {
  }

  /**
    After mirrored writes the database is what the cutover serves exactly while the thread has not
    outgrown the Redis cap; then both are the whole conversation.
  */
  lemma CutoverExact(ws: seq<Write>, cap: nat, user: string, thread: string)
    requires forall i | 0 <= i < |ws| :: Good(ws[i])
    requires GoodUser(user) && GoodThread(thread)
    ensures var s := AfterAll(NOTHING, cap, ws);
            var redis, db := History(s.chats, cap, user, thread), Messages(s.db, user, thread);
            && (Compare(redis, db) in {Matched, EmptyThread} <==> cap == 0 || |db| <= cap)
            && (cap == 0 || |db| <= cap ==> redis == db)
            && Served(true, redis, Some(db)) == Cap(db, cap)
  {
    hide AfterAll, History, Messages, GoodUser, GoodThread, Good;
    RedisIsTail(ws, cap, user, thread);
  }

  // ---------------------------------------------------------------- comparing everything

  /** A conversation source: the threads it lists, and the history it gives for any thread. */
  datatype Source = Source(listed: seq<string>, histories: map<string, seq<Entry>>)

  function HistoryOf(source: Source, id: string): seq<Entry> {
    if id in source.histories then source.histories[id] else []
  }

  function StatusOf(source: Source, db: Database, user: string, id: string): Status {
    Compare(HistoryOf(source, id), Messages(db, user, id))
  }

  /** The ids of a listing, stripped; nothing when one is blank. */
  function IdSet(listed: seq<string>): Option<set<string>> {
    if listed == [] then Some({})
    else
      var rest := IdSet(listed[..|listed| - 1]);
      var id := Strip(listed[|listed| - 1]);
      if rest.None? || id == "" then None else Some(rest.value + {id})
  }

  function DbThreads(db: Database, user: string): set<string> {
    set key | key in db && key.0 == Strip(user) :: key.1
  }

  datatype Report = Report(matched: seq<string>, missingInDb: seq<string>, missingInSource: seq<string>,
                           mismatched: seq<string>, empty: seq<string>)

  function ListFor(r: Report, status: Status): seq<string> {
    match status
    case Matched => r.matched
    case MissingInDb => r.missingInDb
    case MissingInSource => r.missingInSource
    case ContentMismatch => r.mismatched
    case EmptyThread => r.empty
  }

  /** Each id, of those compared, is in the list of its status once and in no other list. */
  ghost predicate Partitions(r: Report, source: Source, db: Database, user: string, ids: set<string>) {
    forall status: Status, id: string ::
      multiset(ListFor(r, status))[id] == if id in ids && StatusOf(source, db, user, id) == status then 1 else 0
  }

  /** `compare_all_threads_for_user`; nothing when the listing has a blank id or the user is blank. */
  method CompareAllThreads(source: Source, db: Database, user: string) returns (report: Option<Report>)
    ensures report.None? <==> IdSet(source.listed).None? || Strip(user) == ""
    ensures report.Some? ==>
              Partitions(report.value, source, db, user, IdSet(source.listed).value + DbThreads(db, user))
  {
    hide Strip, IdSet, StatusOf, Partitions, DbThreads;
    if IdSet(source.listed).None? || Strip(user) == "" {
      return None;
    }
    var all := IdSet(source.listed).value + DbThreads(db, user);
    var left := all;
    var r := Report([], [], [], [], []);
    NothingSorted(source, db, user);
    assert all - left == {};
    while left != {}
      invariant left <= all && Partitions(r, source, db, user, all - left)
      decreases |left|
    {
      var id :| id in left;
      ghost var before := r;
      match StatusOf(source, db, user, id) {
        case Matched => r := r.(matched := r.matched + [id]);
        case MissingInDb => r := r.(missingInDb := r.missingInDb + [id]);
        case MissingInSource => r := r.(missingInSource := r.missingInSource + [id]);
        case ContentMismatch => r := r.(mismatched := r.mismatched + [id]);
        case EmptyThread => r := r.(empty := r.empty + [id]);
      }
      Sorted(before, r, source, db, user, all - left, id);
      assert all - left + {id} == all - (left - {id});
      left := left - {id};
    }
    assert all - left == all;
    report := Some(r);
  }

  lemma NothingSorted(source: Source, db: Database, user: string)
    ensures Partitions(Report([], [], [], [], []), source, db, user, {})
  {
    hide StatusOf;
  }

  /** Adding one new id to the list of its status. */
  lemma Sorted(r: Report, after: Report, source: Source, db: Database, user: string, ids: set<string>, id: string)
    requires Partitions(r, source, db, user, ids) && id !in ids
    requires forall status: Status ::
               ListFor(after, status) == ListFor(r, status)
                                         + (if status == StatusOf(source, db, user, id) then [id] else [])
    ensures Partitions(after, source, db, user, ids + {id})
  {
    hide StatusOf, ListFor;
  }

  // ---------------------------------------------------------------- migrating

  predicate NoBlank(s: seq<Entry>) {
    forall i | 0 <= i < |s| :: Strip(s[i].role) != "" && Strip(s[i].content) != ""
  }

  /** The distinct stripped ids of a listing, in order of first appearance. */
  function Distinct(listed: seq<string>): seq<string> {
    if listed == [] then []
    else
      var rest, id := Distinct(listed[..|listed| - 1]), Strip(listed[|listed| - 1]);
      if id in rest then rest else rest + [id]
  }

  /** `migrate_thread_for_user`: an empty history is skipped; `None` when a message is blank. */
  function MigratedThread(source: Source, db: Database, user: string, id: string): Option<Database> {
    var history := HistoryOf(source, id);
    if history == [] then Some(db) else Imported(db, user, id, history)
  }

  /** The database after migrating the threads, in order, up to the first that is refused. */
  function Migrated(source: Source, db: Database, user: string, ids: seq<string>): Database
    decreases |ids|
  {
    if ids == [] then db
    else
      match MigratedThread(source, db, user, ids[0])
      case None => db
      case Some(after) => Migrated(source, after, user, ids[1..])
  }

  /** Whether every thread can be imported: it is empty, or named and without blank messages. */
  predicate Accepted(source: Source, user: string, id: string) {
    HistoryOf(source, id) == [] || (Named(user, id) && NoBlank(HistoryOf(source, id)))
  }

  predicate AllAccepted(source: Source, user: string, ids: seq<string>) {
    forall i | 0 <= i < |ids| :: Accepted(source, user, ids[i])
  }

  datatype Outcome = Outcome(threads: nat, messages: nat, skipped: seq<string>)

  /** The tally of a migration: threads and messages imported, and the empty threads skipped. */
  function Tally(source: Source, ids: seq<string>): Outcome {
    if ids == [] then Outcome(0, 0, [])
    else
      var before, id := Tally(source, ids[..|ids| - 1]), ids[|ids| - 1];
      var n := |HistoryOf(source, id)|;
      if n == 0 then before.(skipped := before.skipped + [id])
      else Outcome(before.threads + 1, before.messages + n, before.skipped)
  }

  /** `migrate_all_threads_for_user`; nothing when an id is blank or a thread is refused. */
  method MigrateAllThreads(source: Source, store: ConversationStore, user: string) returns (outcome: Option<Outcome>)
    modifies store
    ensures IdSet(source.listed).None? ==> outcome.None? && store.threads == old(store.threads)
    ensures IdSet(source.listed).Some? ==>
              && store.threads == Migrated(source, old(store.threads), user, Distinct(source.listed))
              && outcome == if AllAccepted(source, user, Distinct(source.listed))
                            then Some(Tally(source, Distinct(source.listed))) else None
  {
    hide Strip, Imported, Named, NoBlank, Tally, Distinct, IdSet, Migrated;
    var ids := DistinctIds(source.listed);
    if ids.None? {
      return None;
    }
    var done := Outcome(0, 0, []);
    TallyGrows(source, ids.value, 0);
    for i := 0 to |ids.value|
      invariant Migrated(source, old(store.threads), user, ids.value)
                == Migrated(source, store.threads, user, ids.value[i..])
      invariant done == Tally(source, ids.value[..i])
      invariant AllAccepted(source, user, ids.value[..i])
    {
      var id := ids.value[i];
      MigratedStep(source, store.threads, user, ids.value[i..]);
      assert ids.value[i..][1..] == ids.value[i + 1..];
      TallyGrows(source, ids.value, i);
      ImportedWhen(store.threads, user, id, HistoryOf(source, id));
      var history := HistoryOf(source, id);
      if history == [] {
        done := done.(skipped := done.skipped + [id]);
        continue;
      }
      var ok := store.ImportThreadSnapshot(user, id, history);
      if !ok {
        return None;
      }
      done := Outcome(done.threads + 1, done.messages + |history|, done.skipped);
    }
    assert ids.value[..|ids.value|] == ids.value;
    MigratedNone(source, store.threads, user);
    outcome := Some(done);
  }

  method DistinctIds(listed: seq<string>) returns (ids: Option<seq<string>>)
    ensures ids == if IdSet(listed).None? then None else Some(Distinct(listed))
  {
    hide Strip;
    var found: seq<string> := [];
    var seen: set<string> := {};
    for i := 0 to |listed|
      invariant found == Distinct(listed[..i]) && IdSet(listed[..i]) == Some(seen)
      invariant forall id: string :: id in seen <==> id in found
    {
      assert listed[..i + 1][..i] == listed[..i];
      var id := Strip(listed[i]);
      if id == "" {
        BlankStays(listed, i);
        return None;
      }
      if id in seen {
        assert seen + {id} == seen;
        continue;
      }
      seen := seen + {id};
      found := found + [id];
    }
    assert listed[..|listed|] == listed;
    ids := Some(found);
  }

  lemma {:induction false} BlankStays(listed: seq<string>, i: nat)
    requires i < |listed| && Strip(listed[i]) == ""
    ensures IdSet(listed).None?
    decreases |listed|
  {
    hide Strip;
    if i < |listed| - 1 {
      BlankStays(listed[..|listed| - 1], i);
    }
  }

  lemma TallyGrows(source: Source, ids: seq<string>, i: nat)
    requires i <= |ids|
    ensures i == 0 ==> Tally(source, ids[..i]) == Outcome(0, 0, [])
    ensures i < |ids| ==>
              var before, n := Tally(source, ids[..i]), |HistoryOf(source, ids[i])|;
              Tally(source, ids[..i + 1]) == if n == 0 then before.(skipped := before.skipped + [ids[i]])
                                             else Outcome(before.threads + 1, before.messages + n, before.skipped)
  {
    if i < |ids| {
      assert ids[..i + 1][..i] == ids[..i];
    }
  }

  lemma MigratedNone(source: Source, db: Database, user: string)
    ensures Migrated(source, db, user, []) == db
  {
  }

  lemma MigratedStep(source: Source, db: Database, user: string, ids: seq<string>)
    requires ids != []
    ensures Migrated(source, db, user, ids) == match MigratedThread(source, db, user, ids[0])
                                               case None => db
                                               case Some(after) => Migrated(source, after, user, ids[1..])
  {
  }

  // ---------------------------------------------------------------- what a migration leaves

  lemma {:induction false} NormalizedWhen(s: seq<Entry>)
    ensures Normalized(s) == if NoBlank(s) then Some(Stripped(s)) else None
    decreases |s|
  {
    hide Strip;
    if s != [] {
      NormalizedWhen(s[1..]);
      assert NoBlank(s) <==> Strip(s[0].role) != "" && Strip(s[0].content) != "" && NoBlank(s[1..]) by {
        assert forall i | 0 < i < |s| :: s[i] == s[1..][i - 1];
      }
    }
  }

  lemma ImportedWhen(db: Database, user: string, id: string, s: seq<Entry>)
    ensures match Imported(db, user, id, s)
            case None => !(Named(user, id) && NoBlank(s))
            case Some(after) =>
              && Named(user, id) && NoBlank(s)
              && Messages(after, user, id) == Stripped(s) && OthersKept(db, after, KeyOf(user, id))
              && (Messages(db, user, id) == Stripped(s) ==> after == db)
  {
    hide Strip, Normalized, NoBlank, Named, KeyOf, OthersKept, Ordered, Indexed;
    NormalizedWhen(s);
    SnapshotStored(db, user, id, s);
  }

  lemma StrippedTwice(s: seq<Entry>)
    ensures Stripped(Stripped(s)) == Stripped(s)
  {
    hide Strip;
    forall i | 0 <= i < |s|
      ensures Stripped(Stripped(s))[i] == Stripped(s)[i]
    {
      StripTwice(s[i].role);
      StripTwice(s[i].content);
    }
  }

  /** Trimmed ids, each once. */
  ghost predicate Ids(ids: seq<string>) {
    && (forall i | 0 <= i < |ids| :: Strip(ids[i]) == ids[i])
    && forall i, j | 0 <= i < j < |ids| :: ids[i] != ids[j]
  }

  lemma {:induction false} DistinctIs(listed: seq<string>)
    requires IdSet(listed).Some?
    ensures Ids(Distinct(listed)) && forall id: string :: id in Distinct(listed) <==> id in IdSet(listed).value
    decreases |listed|
  {
    hide Strip;
    if listed != [] {
      var last := listed[|listed| - 1];
      StripTwice(last);
      DistinctIs(listed[..|listed| - 1]);
    }
  }

  /** The ids come in the order in which they were first listed. */
  lemma {:induction false} DistinctInOrder(listed: seq<string>, k: nat)
    requires k <= |listed|
    ensures Distinct(listed[..k]) <= Distinct(listed)
    decreases |listed|
  {
    hide Strip;
    if k == |listed| {
      assert listed[..k] == listed;
    } else {
      var front := listed[..|listed| - 1];
      assert front[..k] == listed[..k];
      DistinctInOrder(front, k);
    }
  }

  /** Every migrated thread holds its history, stripped; every other thread is untouched. */
  ghost predicate Holds(source: Source, db: Database, after: Database, user: string, ids: seq<string>) {
    && (forall id | id in ids && HistoryOf(source, id) != [] ::
        Messages(after, user, id) == Stripped(HistoryOf(source, id)))
    && forall key: (string, string) | key.0 != Strip(user) || key.1 !in ids || HistoryOf(source, key.1) == [] ::
         (key in after <==> key in db) && (key in db ==> after[key] == db[key])
  }

  lemma {:induction false} MigratedHolds(source: Source, db: Database, user: string, ids: seq<string>)
    requires Ids(ids) && AllAccepted(source, user, ids)
    ensures Holds(source, db, Migrated(source, db, user, ids), user, ids)
    decreases |ids|
  {
    hide Strip, Messages, Imported, NoBlank, Named, Stripped;
    if ids != [] {
      var id, rest := ids[0], ids[1..];
      assert Accepted(source, user, id);
      ImportedWhen(db, user, id, HistoryOf(source, id));
      var next := MigratedThread(source, db, user, id).value;
      MigratedHolds(source, next, user, rest);
      HoldsStep(source, db, next, Migrated(source, next, user, rest), user, ids);
    }
  }

  lemma HoldsStep(source: Source, db: Database, next: Database, after: Database, user: string, ids: seq<string>)
    requires ids != [] && Ids(ids) && Holds(source, next, after, user, ids[1..])
    requires if HistoryOf(source, ids[0]) == [] then next == db
             else Messages(next, user, ids[0]) == Stripped(HistoryOf(source, ids[0]))
                  && OthersKept(db, next, KeyOf(user, ids[0]))
    ensures Holds(source, db, after, user, ids)
  {
    hide Strip, Stripped, HistoryOf, Ordered;
    var id, rest := ids[0], ids[1..];
    assert id !in rest;
    assert forall x: string :: x in ids <==> x == id || x in rest;
    if HistoryOf(source, id) == [] {
      return;
    }
    SameRows(next, after, user, id);
    hide Messages;
    assert forall key: (string, string) | key.0 != Strip(user) || key.1 !in ids || HistoryOf(source, key.1) == [] ::
        key != KeyOf(user, id);
  }

  /** Migrating again finds every thread as it should be. */
  lemma {:induction false} MigratedIdle(source: Source, db: Database, user: string, ids: seq<string>)
    requires AllAccepted(source, user, ids)
    requires forall id | id in ids && HistoryOf(source, id) != [] ::
              Messages(db, user, id) == Stripped(HistoryOf(source, id))
    ensures Migrated(source, db, user, ids) == db
    decreases |ids|
  {
    hide Strip, Messages, Imported, NoBlank, Named, Stripped, HistoryOf;
    if ids != [] {
      assert Accepted(source, user, ids[0]);
      ImportedWhen(db, user, ids[0], HistoryOf(source, ids[0]));
      MigratedIdle(source, db, user, ids[1..]);
    }
  }

  /** The threads among these that have a history. */
  function WithHistory(source: Source, ids: seq<string>): seq<string> {
    if ids == [] then []
    else
      var before, id := WithHistory(source, ids[..|ids| - 1]), ids[|ids| - 1];
      if HistoryOf(source, id) == [] then before else before + [id]
  }

  lemma {:induction false} WithHistoryIs(source: Source, ids: seq<string>)
    requires forall i, j | 0 <= i < j < |ids| :: ids[i] != ids[j]
    ensures |WithHistory(source, ids)| == Tally(source, ids).threads
    ensures forall id: string ::
              multiset(WithHistory(source, ids))[id] == if id in ids && HistoryOf(source, id) != [] then 1 else 0
    decreases |ids|
  {
    hide HistoryOf;
    if ids != [] {
      var front, last := ids[..|ids| - 1], ids[|ids| - 1];
      WithHistoryIs(source, front);
      assert forall id: string :: id in ids <==> id in front || id == last;
      assert last !in front;
    }
  }

  /**
    Before the user has any message in the database, the threads reported missing there are exactly
    those a migration imports, as many as it counts.
  */
  lemma MissingIsMigrated(source: Source, db: Database, user: string, r: Report)
    requires ListsAll(source) && forall id :: Messages(db, user, id) == []
    requires Partitions(r, source, db, user, IdSet(source.listed).value + DbThreads(db, user))
    ensures multiset(r.missingInDb) == multiset(WithHistory(source, Distinct(source.listed)))
    ensures |r.missingInDb| == Tally(source, Distinct(source.listed)).threads
    ensures r.matched == r.missingInSource == r.mismatched == []
  {
    hide Messages, IdSet, Distinct, WithHistory, Tally, DbThreads;
    var ids := Distinct(source.listed);
    DistinctIs(source.listed);
    WithHistoryIs(source, ids);
    var all := IdSet(source.listed).value + DbThreads(db, user);
    forall id: string
      ensures multiset(r.missingInDb)[id] == multiset(WithHistory(source, ids))[id]
    {
      MissingOnce(source, db, user, r, all, id);
    }
    assert multiset(r.missingInDb) == multiset(WithHistory(source, ids));
    assert |multiset(r.missingInDb)| == |r.missingInDb|;
    NoneListed(source, db, user, r, all);
  }

  lemma MissingOnce(source: Source, db: Database, user: string, r: Report, all: set<string>, id: string)
    requires Partitions(r, source, db, user, all) && Messages(db, user, id) == []
    ensures multiset(r.missingInDb)[id] == if id in all && HistoryOf(source, id) != [] then 1 else 0
  {
    hide Messages, HistoryOf;
    assert ListFor(r, MissingInDb) == r.missingInDb;
  }

  lemma NotListed(source: Source, db: Database, user: string, r: Report, all: set<string>, status: Status, id: string)
    requires Partitions(r, source, db, user, all) && StatusOf(source, db, user, id) != status
    ensures multiset(ListFor(r, status))[id] == 0
  {
    hide StatusOf, ListFor;
  }

  lemma NoneListed(source: Source, db: Database, user: string, r: Report, all: set<string>)
    requires Partitions(r, source, db, user, all) && forall id :: Messages(db, user, id) == []
    ensures r.matched == r.missingInSource == r.mismatched == []
  {
    hide Messages, HistoryOf, Partitions;
    if r.matched != [] {
      NotListed(source, db, user, r, all, Matched, r.matched[0]);
    }
    if r.missingInSource != [] {
      NotListed(source, db, user, r, all, MissingInSource, r.missingInSource[0]);
    }
    if r.mismatched != [] {
      NotListed(source, db, user, r, all, ContentMismatch, r.mismatched[0]);
    }
  }

  /** The source lists every thread that has a history. */
  predicate ListsAll(source: Source) {
    IdSet(source.listed).Some? && forall id | id in source.histories && source.histories[id] != [] ::
        id in IdSet(source.listed).value
  }

  /**
    From any database, once an accepted source has been migrated, no thread is missing in the
    database and none differs; a thread with no history keeps its messages, other users keep
    theirs, and a second migration changes nothing.
  */
  lemma MigrateThenCompare(source: Source, db: Database, user: string)
    requires ListsAll(source) && AllAccepted(source, user, Distinct(source.listed))
    ensures var ids := Distinct(source.listed);
            var after := Migrated(source, db, user, ids);
            && (forall id | Strip(id) == id ::
                  StatusOf(source, after, user, id)
                  == if HistoryOf(source, id) != [] then Matched
                     else if Messages(db, user, id) == [] then EmptyThread else MissingInSource)
            && (forall key: (string, string) | key.0 != Strip(user) :: RowsAt(after, key) == RowsAt(db, key))
            && Migrated(source, after, user, ids) == after
  {
    hide Strip, IdSet, Distinct, Stripped, Messages, Migrated, AllAccepted;
    var ids := Distinct(source.listed);
    var after := Migrated(source, db, user, ids);
    DistinctIs(source.listed);
    MigratedHolds(source, db, user, ids);
    MigratedIdle(source, after, user, ids);
    forall id | Strip(id) == id
      ensures StatusOf(source, after, user, id)
              == if HistoryOf(source, id) != [] then Matched
                 else if Messages(db, user, id) == [] then EmptyThread else MissingInSource
    {
      if HistoryOf(source, id) != [] {
        assert id in IdSet(source.listed).value;
        StrippedTwice(HistoryOf(source, id));
      } else {
        SameRows(db, after, user, id);
      }
    }
  }

  lemma SameRows(db: Database, after: Database, user: string, id: string)
    requires RowsAt(after, KeyOf(user, id)) == RowsAt(db, KeyOf(user, id))
    ensures Messages(after, user, id) == Messages(db, user, id)
  {
  }

  /** So the report after a migration has nothing missing in the database and no mismatch. */
  lemma ReportAfterMigration(source: Source, db: Database, user: string, report: Report)
    requires ListsAll(source) && AllAccepted(source, user, Distinct(source.listed))
    requires forall key | key in db :: Strip(key.1) == key.1
    requires var after := Migrated(source, db, user, Distinct(source.listed));
             Partitions(report, source, after, user, IdSet(source.listed).value + DbThreads(after, user))
    ensures report.missingInDb == [] && report.mismatched == []
  {
    hide Strip, Distinct, Stripped, Messages, Migrated, AllAccepted, StatusOf;
    var after := Migrated(source, db, user, Distinct(source.listed));
    MigrateThenCompare(source, db, user);
    MigratedTrimmed(source, db, user);
    var ids := IdSet(source.listed).value + DbThreads(after, user);
    NothingListed(report, source, after, user, ids, MissingInDb);
    NothingListed(report, source, after, user, ids, ContentMismatch);
  }

  lemma NothingListed(r: Report, source: Source, db: Database, user: string, ids: set<string>, status: Status)
    requires Partitions(r, source, db, user, ids)
    requires forall id | id in ids :: StatusOf(source, db, user, id) != status
    ensures ListFor(r, status) == []
  {
    hide StatusOf, ListFor;
    var s := ListFor(r, status);
    forall id: string
      ensures multiset(s)[id] == 0
    {
      assert multiset(ListFor(r, status))[id] == if id in ids && StatusOf(source, db, user, id) == status then 1 else 0;
    }
    assert multiset(s) == multiset{};
    assert |multiset(s)| == |s|;
  }

  /** Migrating opens only trimmed threads. */
  lemma MigratedTrimmed(source: Source, db: Database, user: string)
    requires IdSet(source.listed).Some? && AllAccepted(source, user, Distinct(source.listed))
    requires forall key | key in db :: Strip(key.1) == key.1
    ensures var after := Migrated(source, db, user, Distinct(source.listed));
            forall id | id in IdSet(source.listed).value + DbThreads(after, user) :: Strip(id) == id
  {
    hide Strip, Distinct, Stripped, Messages, Migrated, AllAccepted, IdSet;
    DistinctIs(source.listed);
    MigratedHolds(source, db, user, Distinct(source.listed));
  }
}
