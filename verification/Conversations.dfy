/** The SQL conversation store: threads of messages ordered by their index. */
module Conversations {
  import opened Common
  import opened Text

  datatype Entry = Entry(role: string, content: string)

  datatype Row = Row(index: int, entry: Entry)

  /** The rows of one thread in the order of their primary keys. */
  type Rows = seq<Row>

  /** Threads by username and thread id, which are unique together. */
  type Database = map<(string, string), Rows>

  // ---------------------------------------------------------------- rows in index order

  /** A newer row goes after the rows of the same index. */
  function Insert(r: Row, sorted: Rows): Rows {
    if sorted == [] then [r]
    else
      var n := |sorted| - 1;
      if sorted[n].index <= r.index then sorted + [r] else Insert(r, sorted[..n]) + [sorted[n]]
  }

  /** Rows by index, then primary key. */
  function ByIndex(rows: Rows): Rows {
    if rows == [] then [] else Insert(rows[|rows| - 1], ByIndex(rows[..|rows| - 1]))
  }

  function Entries(rows: Rows): (s: seq<Entry>)
    ensures |s| == |rows| && forall i | 0 <= i < |s| :: s[i] == rows[i].entry
  {
    if rows == [] then [] else [rows[0].entry] + Entries(rows[1..])
  }

  function Ordered(rows: Rows): seq<Entry> { Entries(ByIndex(rows)) }

  /** The largest index, one below the first when there is no row. */
  function MaxIndex(rows: Rows): (top: int)
    ensures forall i | 0 <= i < |rows| :: rows[i].index <= top
  {
    if rows == [] then -1
    else if |rows| == 1 then rows[0].index
    else Max(MaxIndex(rows[..|rows| - 1]), rows[|rows| - 1].index)
  }

  /** A snapshot as rows numbered from zero. */
  function Indexed(s: seq<Entry>): (rows: Rows)
    ensures |rows| == |s| && forall i | 0 <= i < |s| :: rows[i] == Row(i, s[i])
  {
    if s == [] then [] else Indexed(s[..|s| - 1]) + [Row(|s| - 1, s[|s| - 1])]
  }

  predicate Ascending(rows: Rows) { forall i, j | 0 <= i < j < |rows| :: rows[i].index <= rows[j].index }

  lemma {:induction false} InsertSorts(r: Row, sorted: Rows)
    requires Ascending(sorted)
    ensures Ascending(Insert(r, sorted)) && multiset(Insert(r, sorted)) == multiset(sorted) + multiset{r}
  {
    if sorted != [] {
      var n := |sorted| - 1;
      assert sorted == sorted[..n] + [sorted[n]];
      if sorted[n].index > r.index {
        InsertSorts(r, sorted[..n]);
        AscendingAbove(Insert(r, sorted[..n]), sorted[..n], r, sorted[n]);
      }
    }
  }

  lemma AscendingAbove(rows: Rows, below: Rows, r: Row, top: Row)
    requires Ascending(rows) && multiset(rows) == multiset(below) + multiset{r}
    requires r.index <= top.index && forall i | 0 <= i < |below| :: below[i].index <= top.index
    ensures Ascending(rows + [top])
  {
    forall i | 0 <= i < |rows|
      ensures rows[i].index <= top.index
    {
      assert rows[i] in multiset(rows);
      assert rows[i] == r || rows[i] in below;
    }
  }

  lemma NothingAscends()
    ensures Ascending([])
  {
  }

  /** What is read is sorted by index and holds every row once. */
  lemma {:induction false} ByIndexSorts(rows: Rows)
    ensures Ascending(ByIndex(rows)) && multiset(ByIndex(rows)) == multiset(rows)
  {
    hide Ascending, Insert;
    if rows == [] {
      assert Ascending(rows) by { NothingAscends(); }
    } else {
      var n := |rows| - 1;
      ByIndexSorts(rows[..n]);
      InsertSorts(rows[n], ByIndex(rows[..n]));
      assert rows == rows[..n] + [rows[n]];
    }
  }

  lemma {:induction false} EntriesAppend(rows: Rows, r: Row)
    ensures Entries(rows + [r]) == Entries(rows) + [r.entry]
  {
  }

  /** A row above all the others comes last. */
  lemma OrderedAbove(rows: Rows, r: Row)
    requires forall i | 0 <= i < |rows| :: rows[i].index <= r.index
    ensures Ordered(rows + [r]) == Ordered(rows) + [r.entry]
  {
    var sorted := ByIndex(rows);
    ByIndexSorts(rows);
    assert (rows + [r])[..|rows|] == rows;
    if sorted != [] {
      assert sorted[|sorted| - 1] in multiset(sorted);
      assert sorted[|sorted| - 1] in rows;
    }
    EntriesAppend(sorted, r);
  }

  lemma {:induction false} OrderedIndexed(s: seq<Entry>)
    ensures Ordered(Indexed(s)) == s
    decreases |s|
  {
    if s != [] {
      var n := |s| - 1;
      OrderedIndexed(s[..n]);
      OrderedAbove(Indexed(s[..n]), Row(n, s[n]));
      assert s == s[..n] + [s[n]];
    }
  }

  // ---------------------------------------------------------------- operations

  function KeyOf(username: string, thread: string): (string, string) { (Strip(username), Strip(thread)) }

  predicate Named(username: string, thread: string) { Strip(username) != "" && Strip(thread) != "" }

  /** A thread's rows, none when there is no such thread. */
  function RowsAt(db: Database, key: (string, string)): Rows {
    if key in db then db[key] else []
  }

  /** `get_messages`. */
  function Messages(db: Database, username: string, thread: string): seq<Entry> {
    if Named(username, thread) then Ordered(RowsAt(db, KeyOf(username, thread))) else []
  }

  /** `create_or_get_thread`; nothing for a blank name. */
  function Created(db: Database, username: string, thread: string): Option<Database> {
    var key := KeyOf(username, thread);
    if !Named(username, thread) then None
    else Some(if key in db then db else db[key := []])
  }

  /** `append_message`. */
  function Appended(db: Database, username: string, thread: string, e: Entry): Option<Database> {
    var key := KeyOf(username, thread);
    if !Named(username, thread) || Strip(e.role) == "" || e.content == "" then None
    else
      var rows := RowsAt(db, key);
      Some(db[key := rows + [Row(MaxIndex(rows) + 1, Entry(Strip(e.role), e.content))]])
  }

  /** `delete_thread_messages`. */
  function Emptied(db: Database, username: string, thread: string): Database {
    var key := KeyOf(username, thread);
    if Named(username, thread) && key in db then db[key := []] else db
  }

  /** `delete_thread`. */
  function Removed(db: Database, username: string, thread: string): Option<Database> {
    if !Named(username, thread) then None else Some(db - {KeyOf(username, thread)})
  }

  /** `_normalize_snapshot_messages`; nothing when a message has no role or no text. */
  function Normalized(s: seq<Entry>): Option<seq<Entry>> {
    if s == [] then Some([])
    else
      var role, content := Strip(s[0].role), Strip(s[0].content);
      var rest := Normalized(s[1..]);
      if role == "" || content == "" || rest.None? then None else Some([Entry(role, content)] + rest.value)
  }

  function Follow(first: seq<Entry>, rest: Option<seq<Entry>>): Option<seq<Entry>> {
    if rest.None? then None else Some(first + rest.value)
  }

  lemma FollowNothing(rest: Option<seq<Entry>>)
    ensures Follow([], rest) == rest
  {
    if rest.Some? {
      assert [] + rest.value == rest.value;
    }
  }

  lemma FollowMore(first: seq<Entry>, e: Entry, rest: Option<seq<Entry>>)
    ensures Follow(first + [e], rest) == Follow(first, Follow([e], rest))
  {
    if rest.Some? {
      assert first + [e] + rest.value == first + ([e] + rest.value);
    }
  }

  method NormalizeSnapshotMessages(messages: seq<Entry>) returns (snapshot: Option<seq<Entry>>)
    ensures snapshot == Normalized(messages)
  {
    hide Strip;
    var out: seq<Entry> := [];
    assert messages[0..] == messages;
    FollowNothing(Normalized(messages));
    for i := 0 to |messages|
      invariant Normalized(messages) == Follow(out, Normalized(messages[i..]))
    {
      assert messages[i..][1..] == messages[i + 1..];
      var role, content := Strip(messages[i].role), Strip(messages[i].content);
      if role == "" || content == "" {
        return None;
      }
      FollowMore(out, Entry(role, content), Normalized(messages[i + 1..]));
      out := out + [Entry(role, content)];
    }
    assert out + [] == out;
    snapshot := Some(out);
  }

  /** `replace_thread_snapshot`. */
  function Replaced(db: Database, username: string, thread: string, s: seq<Entry>): Option<Database> {
    if !Named(username, thread) || Normalized(s).None? then None
    else Some(db[KeyOf(username, thread) := Indexed(Normalized(s).value)])
  }

  /** `import_thread_snapshot`: nothing is written when the rows already match. */
  function Imported(db: Database, username: string, thread: string, s: seq<Entry>): Option<Database> {
    if !Named(username, thread) || Normalized(s).None? then None
    else if Messages(db, username, thread) == Normalized(s).value then Some(db)
    else Replaced(db, username, thread, s)
  }

  // ---------------------------------------------------------------- what they do to the messages

  /** Every operation leaves the other threads alone. */
  ghost predicate OthersKept(db: Database, after: Database, key: (string, string)) {
    forall k | k != key :: (k in after <==> k in db) && (k in db ==> after[k] == db[k])
  }

  lemma OtherMessages(db: Database, after: Database, key: (string, string), username: string, thread: string)
    requires OthersKept(db, after, key) && KeyOf(username, thread) != key
    ensures Messages(after, username, thread) == Messages(db, username, thread)
  {
  }

  /** Appending puts the message last. */
  lemma AppendLast(db: Database, username: string, thread: string, e: Entry)
    ensures match Appended(db, username, thread, e)
            case None => !Named(username, thread) || Strip(e.role) == "" || e.content == ""
            case Some(after) =>
              && Messages(after, username, thread) == Messages(db, username, thread) + [Entry(Strip(e.role), e.content)]
              && OthersKept(db, after, KeyOf(username, thread)) && KeyOf(username, thread) in after
  {
    hide Strip, Ordered;
    var rows := RowsAt(db, KeyOf(username, thread));
    OrderedAbove(rows, Row(MaxIndex(rows) + 1, Entry(Strip(e.role), e.content)));
  }

  /** Replacing and importing leave exactly the normalized snapshot. */
  lemma SnapshotStored(db: Database, username: string, thread: string, s: seq<Entry>)
    ensures Replaced(db, username, thread, s).None? <==> !Named(username, thread) || Normalized(s).None?
    ensures match Replaced(db, username, thread, s)
            case None => Imported(db, username, thread, s).None?
            case Some(after) =>
              && Messages(after, username, thread) == Normalized(s).value
              && OthersKept(db, after, KeyOf(username, thread)) && KeyOf(username, thread) in after
              && Imported(db, username, thread, s).Some?
              && Messages(Imported(db, username, thread, s).value, username, thread) == Normalized(s).value
              && OthersKept(db, Imported(db, username, thread, s).value, KeyOf(username, thread))
  {
    hide Strip, Ordered, Normalized, Indexed;
    if Normalized(s).Some? {
      OrderedIndexed(Normalized(s).value);
    }
  }

  /** Clearing leaves no message. */
  lemma NothingLeft(db: Database, username: string, thread: string)
    ensures Messages(Emptied(db, username, thread), username, thread) == []
    ensures OthersKept(db, Emptied(db, username, thread), KeyOf(username, thread))
    ensures Removed(db, username, thread).Some? ==>
              && Messages(Removed(db, username, thread).value, username, thread) == []
              && OthersKept(db, Removed(db, username, thread).value, KeyOf(username, thread))
              && KeyOf(username, thread) !in Removed(db, username, thread).value
  {
    hide Strip;
  }

  /** Opening a thread changes no message. */
  lemma OpenedEmpty(db: Database, username: string, thread: string)
    ensures Created(db, username, thread).Some? ==>
              && KeyOf(username, thread) in Created(db, username, thread).value
              && OthersKept(db, Created(db, username, thread).value, KeyOf(username, thread))
              && Messages(Created(db, username, thread).value, username, thread) == Messages(db, username, thread)
  {
    hide Strip;
  }

  // ---------------------------------------------------------------- the store

  class ConversationStore {
    var threads: Database

    constructor ()
      ensures threads == map[]
    {
      threads := map[];
    }

    method CreateOrGetThread(username: string, thread: string) returns (ok: bool)
      modifies this
      ensures ok == Created(old(threads), username, thread).Some?
      ensures threads == if ok then Created(old(threads), username, thread).value else old(threads)
    {
      hide Strip;
      var key := KeyOf(username, thread);
      if key.0 == "" || key.1 == "" {
        return false;
      }
      if key !in threads {
        threads := threads[key := []];
      }
      ok := true;
    }

    method AppendMessage(username: string, thread: string, role: string, content: string) returns (ok: bool)
      modifies this
      ensures ok == Appended(old(threads), username, thread, Entry(role, content)).Some?
      ensures threads == if ok then Appended(old(threads), username, thread, Entry(role, content)).value
                else old(threads)
    {
      hide Strip;
      var key := KeyOf(username, thread);
      if key.0 == "" || key.1 == "" || Strip(role) == "" || content == "" {
        return false;
      }
      if key !in threads {
        threads := threads[key := []];
      }
      var row := Row(MaxIndex(threads[key]) + 1, Entry(Strip(role), content));
      threads := threads[key := threads[key] + [row]];
      assert threads == old(threads)[key := RowsAt(old(threads), key) + [row]];
      ok := true;
    }

    method GetMessages(username: string, thread: string) returns (out: seq<Entry>)
      ensures out == Messages(threads, username, thread)
    {
      hide Strip;
      var key := KeyOf(username, thread);
      if key.0 == "" || key.1 == "" || key !in threads {
        return [];
      }
      out := Ordered(threads[key]);
    }

    method DeleteThreadMessages(username: string, thread: string) returns (deleted: nat)
      modifies this
      ensures threads == Emptied(old(threads), username, thread)
      ensures deleted == if Named(username, thread) then |RowsAt(old(threads), KeyOf(username, thread))| else 0
    {
      hide Strip;
      var key := KeyOf(username, thread);
      if key.0 == "" || key.1 == "" || key !in threads {
        return 0;
      }
      deleted := |threads[key]|;
      threads := threads[key := []];
    }

    method DeleteThread(username: string, thread: string) returns (deleted: Option<nat>)
      modifies this
      ensures deleted.Some? == Removed(old(threads), username, thread).Some?
      ensures deleted.Some? ==> threads == Removed(old(threads), username, thread).value
                                && deleted.value == |old(threads)| - |threads|
      ensures deleted.None? ==> threads == old(threads)
    {
      hide Strip;
      var key := KeyOf(username, thread);
      if key.0 == "" || key.1 == "" {
        return None;
      }
      if key !in threads {
        assert threads - {key} == threads;
        return Some(0);
      }
      ghost var before := threads;
      threads := threads - {key};
      assert before == threads[key := before[key]];
      deleted := Some(1);
    }

    method ReplaceThreadSnapshot(username: string, thread: string, messages: seq<Entry>) returns (ok: bool)
      modifies this
      ensures ok == Replaced(old(threads), username, thread, messages).Some?
      ensures threads == if ok then Replaced(old(threads), username, thread, messages).value else old(threads)
    {
      hide Strip, Normalized, Indexed;
      var snapshot := NormalizeSnapshotMessages(messages);
      if !Named(username, thread) || snapshot.None? {
        return false;
      }
      threads := threads[KeyOf(username, thread) := Indexed(snapshot.value)];
      ok := true;
    }

    method ImportThreadSnapshot(username: string, thread: string, messages: seq<Entry>) returns (ok: bool)
      modifies this
      ensures ok == Imported(old(threads), username, thread, messages).Some?
      ensures threads == if ok then Imported(old(threads), username, thread, messages).value else old(threads)
    {
      hide Strip, Normalized, Indexed;
      var snapshot := NormalizeSnapshotMessages(messages);
      if !Named(username, thread) || snapshot.None? {
        return false;
      }
      var existing := GetMessages(username, thread);
      if existing != snapshot.value {
        threads := threads[KeyOf(username, thread) := Indexed(snapshot.value)];
      }
      ok := true;
    }
  }
}
