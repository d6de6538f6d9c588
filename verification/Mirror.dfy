/** What dual writing keeps between Redis and the database. */
module Mirror {
  import opened Common
  import opened Text
  import opened Conversations
  import opened Chats
  import opened DualWrite

  /** Users whose keys cannot run into those of another user. */
  predicate GoodUser(user: string) { user != "" && Trim(user) && ':' !in user }

  /** The registry lives under the key of a thread called `threads`. */
  predicate GoodThread(thread: string) { thread != "" && Trim(thread) && thread != "threads" }

  predicate Good(w: Write) {
    && GoodUser(w.user) && GoodThread(NormalizeThread(w.thread))
    && (w.AppendMessage? ==> ChatRole(w.entry.role) && w.entry.content != "")
  }

  predicate AllChat(s: seq<Entry>) { forall i | 0 <= i < |s| :: ChatRole(s[i].role) }

  /** One thread: Redis holds the last rows of the database, which lists no unregistered thread. */
  ghost predicate ThreadSynced(s: Both, cap: nat, user: string, thread: string) {
    && ListAt(s.chats, HistoryKey(user, thread)) == Cap(Messages(s.db, user, thread), cap)
    && AllChat(Messages(s.db, user, thread))
    && (KeyOf(user, thread) in s.db ==> (user, thread) in s.chats.registry)
  }

  ghost predicate NoLegacy(c: Chats) { forall user | GoodUser(user) :: LegacyKey(user) !in c.lists }

  ghost predicate Synced(s: Both, cap: nat) {
    && NoLegacy(s.chats)
    && forall user, thread | GoodUser(user) && GoodThread(thread) :: ThreadSynced(s, cap, user, thread)
  }

  // ---------------------------------------------------------------- Redis

  /** A write changes no list but its thread's, and leaves no legacy bucket. */
  ghost predicate OneList(c: Chats, after: Chats, user: string, thread: string) {
    && NoLegacy(after)
    && (forall u, t | GoodUser(u) && (u, t) != (user, thread) ::
        ListAt(after, HistoryKey(u, t)) == ListAt(c, HistoryKey(u, t)))
    && forall u, t | (u, t) != (user, thread) :: (u, t) in after.registry <==> (u, t) in c.registry
  }

  lemma PushedList(c: Chats, cap: nat, user: string, thread: string, e: Entry)
    requires NoLegacy(c) && GoodUser(user)
    ensures var after := Pushed(c, cap, user, thread, e);
            && OneList(c, after, user, thread) && (user, thread) in after.registry
            && ListAt(after, HistoryKey(user, thread)) == Cap(ListAt(c, HistoryKey(user, thread)) + [e], cap)
  {
    hide HistoryKey, LegacyKey, Cap;
    KeysDiffer(user, thread, user, thread);
    var after := Pushed(c, cap, user, thread, e);
    assert LegacyKey(user) !in c.lists;
    assert after.lists == c.lists[HistoryKey(user, thread) := Cap(ListAt(c, HistoryKey(user, thread)) + [e], cap)];
    KeepsKeys(c, after, user, thread);
  }

  lemma ClearedList(c: Chats, user: string, thread: string, preserve: bool)
    requires NoLegacy(c) && GoodUser(user)
    ensures var after := Cleared(c, user, thread, preserve);
            && OneList(c, after, user, thread) && (preserve <==> (user, thread) in after.registry)
            && ListAt(after, HistoryKey(user, thread)) == []
  {
    hide HistoryKey, LegacyKey, GoodUser;
    KeepsKeys(c, Cleared(c, user, thread, preserve), user, thread);
  }

  /** Changing one key and dropping the legacy one touches no other thread. */
  lemma KeepsKeys(c: Chats, after: Chats, user: string, thread: string)
    requires NoLegacy(c) && GoodUser(user)
    requires forall key | key != HistoryKey(user, thread) && key != LegacyKey(user) ::
               (key in after.lists <==> key in c.lists) && (key in c.lists ==> after.lists[key] == c.lists[key])
    requires LegacyKey(user) !in after.lists
    requires forall u, t | (u, t) != (user, thread) :: (u, t) in after.registry <==> (u, t) in c.registry
    ensures OneList(c, after, user, thread)
  {
    hide HistoryKey, LegacyKey;
    forall u | GoodUser(u)
      ensures LegacyKey(u) !in after.lists
    {
      KeysDiffer(user, thread, u, thread);
    }
    forall u, t | GoodUser(u) && (u, t) != (user, thread)
      ensures ListAt(after, HistoryKey(u, t)) == ListAt(c, HistoryKey(u, t))
    {
      KeysDiffer(u, t, user, thread);
    }
  }

  /** Pushing onto a cleared thread leaves the last of what was pushed. */
  lemma {:induction false} PushedAllList(c: Chats, cap: nat, user: string, thread: string, s: seq<Entry>)
    requires NoLegacy(c) && GoodUser(user) && ListAt(c, HistoryKey(user, thread)) == [] && (user, thread) in c.registry
    requires forall i | 0 <= i < |s| :: Trim(s[i].role) && Trim(s[i].content)
    ensures var after := PushedAll(c, cap, user, thread, s);
            && OneList(c, after, user, thread) && (user, thread) in after.registry
            && ListAt(after, HistoryKey(user, thread)) == Cap(s, cap)
    decreases |s|
  {
    hide HistoryKey, LegacyKey, Pushed, Trim, Strip, GoodUser, Cap;
    if s == [] {
      CapNothing(s, cap);
    } else {
      var n := |s| - 1;
      PushedAllList(c, cap, user, thread, s[..n]);
      var before := PushedAll(c, cap, user, thread, s[..n]);
      StripFacts(s[n].role);
      StripFacts(s[n].content);
      PushedList(before, cap, user, thread, s[n]);
      CapAppend(s[..n], s[n], cap);
      assert s == s[..n] + [s[n]];
    }
  }

  lemma CapNothing(s: seq<Entry>, cap: nat)
    requires s == []
    ensures Cap(s, cap) == []
  {
  }

  // ---------------------------------------------------------------- snapshots

  /** What a snapshot keeps is already normalized: stripped, with text, and of a chat role. */
  lemma {:induction false} SnapshotClean(messages: seq<Entry>)
    ensures var s := Snapshot(messages);
            && AllChat(s)
            && forall i | 0 <= i < |s| :: Trim(s[i].role) && Trim(s[i].content) && s[i].role != "" && s[i].content != ""
    decreases |messages|
  {
    hide Strip, Trim;
    if messages != [] {
      var n := |messages| - 1;
      SnapshotClean(messages[..n]);
      StripFacts(messages[n].role);
      StripFacts(messages[n].content);
    }
  }

  lemma {:induction false} SnapshotConcat(a: seq<Entry>, b: seq<Entry>)
    ensures Snapshot(a + b) == Snapshot(a) + Snapshot(b)
    decreases |b|
  {
    hide Strip, ChatRole;
    if b == [] {
      assert a + b == a;
    } else {
      var n := |b| - 1;
      assert (a + b)[..|a| + n] == a + b[..n] && (a + b)[|a| + n] == b[n];
      SnapshotConcat(a, b[..n]);
    }
  }

  /** Each message of a chat role with text is in the snapshot, stripped, at its place; no other message is. */
  lemma SnapshotExact(messages: seq<Entry>, i: nat)
    requires i < |messages|
    ensures var role, content := Strip(messages[i].role), Strip(messages[i].content);
            Snapshot(messages)
            == Snapshot(messages[..i])
               + (if role in {"user", "assistant"} && content != "" then [Entry(role, content)] else [])
               + Snapshot(messages[i + 1..])
  {
    hide Strip, Snapshot;
    SnapshotOne(messages[i]);
    SnapshotAround(messages[..i], messages[i], messages[i + 1..]);
    SplitAt(messages, i);
  }

  lemma SplitAt(messages: seq<Entry>, i: nat)
    requires i < |messages|
    ensures messages == messages[..i] + [messages[i]] + messages[i + 1..]
  {
  }

  lemma SnapshotAround(a: seq<Entry>, m: Entry, b: seq<Entry>)
    ensures Snapshot(a + [m] + b) == Snapshot(a) + Snapshot([m]) + Snapshot(b)
  {
    hide Snapshot;
    SnapshotConcat(a, [m]);
    SnapshotConcat(a + [m], b);
  }

  lemma SnapshotOne(m: Entry)
    ensures var role, content := Strip(m.role), Strip(m.content);
            Snapshot([m]) == if role in {"user", "assistant"} && content != "" then [Entry(role, content)] else []
  {
    hide Strip;
    assert [m][..0] == [];
  }

  lemma {:induction false} NormalizedClean(s: seq<Entry>)
    requires forall i | 0 <= i < |s| :: Trim(s[i].role) && Trim(s[i].content) && s[i].role != "" && s[i].content != ""
    ensures Normalized(s) == Some(s)
    decreases |s|
  {
    hide Strip, Trim;
    if s != [] {
      StripFacts(s[0].role);
      StripFacts(s[0].content);
      NormalizedClean(s[1..]);
      assert s == [s[0]] + s[1..];
    }
  }

  // ---------------------------------------------------------------- one write

  lemma GoodNames(user: string, thread: string)
    requires GoodUser(user) && GoodThread(thread)
    ensures KeyOf(user, thread) == (user, thread) && Named(user, thread)
  {
    StripFacts(user);
    StripFacts(thread);
  }

  lemma RoleTrim(role: string)
    requires ChatRole(role)
    ensures Trim(role) && role != "" && Strip(role) == role
  {
    StripFacts(role);
  }

  /** What a mirrored write does to its own thread. */
  lemma WriteSyncs(s: Both, cap: nat, w: Write)
    requires Synced(s, cap) && Good(w)
    ensures var after := Written(s, cap, w, true);
            var thread := NormalizeThread(w.thread);
            && OneList(s.chats, after.chats, w.user, thread)
            && OthersKept(s.db, after.db, (w.user, thread))
            && ThreadSynced(after, cap, w.user, thread)
  {
    hide GoodUser, GoodThread, NormalizeThread, HistoryKey, LegacyKey, Cap, Pushed, Cleared, Appended, Replaced,
         Emptied, Removed, Created, KeyOf, Strip, Trim, Messages, PushedAll, Snapshot, Normalized, ChatRole;
    var user, thread := w.user, NormalizeThread(w.thread);
    GoodNames(user, thread);
    assert ThreadSynced(s, cap, user, thread);
    match w {
      case EnsureThread(_, _) =>
        EnsureSyncs(s, cap, user, thread);
      case AppendMessage(_, _, e) =>
        PushedList(s.chats, cap, user, thread, e);
        AppendLast(s.db, user, thread, e);
        RoleTrim(e.role);
        CapAppend(Messages(s.db, user, thread), e, cap);
        assert Entry(Strip(e.role), e.content) == e;
      case ClearThread(_, _, preserve) =>
        ClearedList(s.chats, user, thread, preserve);
        NothingLeft(s.db, user, thread);
        CapNothing([], cap);
        if !preserve {
          RemovedSome(s.db, user, thread);
        }
      case ReplaceSnapshot(_, _, messages) =>
        var snapshot := Snapshot(messages);
        SnapshotClean(messages);
        NormalizedClean(snapshot);
        ClearedList(s.chats, user, thread, true);
        PushedAllList(Cleared(s.chats, user, thread, true), cap, user, thread, snapshot);
        SnapshotStored(s.db, user, thread, snapshot);
    }
  }

  lemma EnsureSyncs(s: Both, cap: nat, user: string, thread: string)
    requires NoLegacy(s.chats) && ThreadSynced(s, cap, user, thread) && KeyOf(user, thread) == (user, thread)
              && Named(user, thread)
    ensures var after := Both(Touched(s.chats, user, thread), OrSame(Created(s.db, user, thread), s.db));
            && OneList(s.chats, after.chats, user, thread) && OthersKept(s.db, after.db, (user, thread))
            && ThreadSynced(after, cap, user, thread)
  {
    hide Messages, KeyOf, Named, HistoryKey, LegacyKey, GoodUser, Cap;
    OpenedEmpty(s.db, user, thread);
  }

  lemma RemovedSome(db: Database, user: string, thread: string)
    requires Named(user, thread)
    ensures Removed(db, user, thread).Some?
  {
  }

  /** A mirrored write keeps every thread in step. */
  lemma WriteKeeps(s: Both, cap: nat, w: Write)
    requires Synced(s, cap) && Good(w)
    ensures Synced(Written(s, cap, w, true), cap)
  {
    hide GoodUser, GoodThread, NormalizeThread, HistoryKey, LegacyKey, Cap, Written, KeyOf, Messages, AllChat;
    var after := Written(s, cap, w, true);
    var thread := NormalizeThread(w.thread);
    WriteSyncs(s, cap, w);
    forall u, t | GoodUser(u) && GoodThread(t)
      ensures ThreadSynced(after, cap, u, t)
    {
      if (u, t) != (w.user, thread) {
        assert ThreadSynced(s, cap, u, t);
        GoodNames(u, t);
        OtherMessages(s.db, after.db, (w.user, thread), u, t);
      }
    }
  }

  // ---------------------------------------------------------------- runs

  function AfterAll(s: Both, cap: nat, ws: seq<Write>): Both {
    if ws == [] then s else Written(AfterAll(s, cap, ws[..|ws| - 1]), cap, ws[|ws| - 1], true)
  }

  const NOTHING := Both(Chats(map[], {}), map[])

  /**
    When no mirror call fails, after any sequence of writes every thread's Redis history is
    exactly the last `cap` messages of its database thread, and every database thread is registered.
  */
  lemma {:induction false} RedisIsTail(ws: seq<Write>, cap: nat, user: string, thread: string)
    requires forall i | 0 <= i < |ws| :: Good(ws[i])
    requires GoodUser(user) && GoodThread(thread)
    ensures var s := AfterAll(NOTHING, cap, ws);
            && History(s.chats, cap, user, thread) == Cap(Messages(s.db, user, thread), cap)
            && (KeyOf(user, thread) in s.db ==> (user, thread) in s.chats.registry)
  {
    hide GoodUser, GoodThread, HistoryKey, LegacyKey, Cap, KeyOf, Messages, AfterAll, Decoded, AllChat;
    RunSynced(ws, cap);
    var s := AfterAll(NOTHING, cap, ws);
    assert ThreadSynced(s, cap, user, thread);
    assert LegacyKey(user) !in s.chats.lists;
    assert ListAt(Settled(s.chats, cap, user, thread), HistoryKey(user, thread))
        == ListAt(s.chats, HistoryKey(user, thread));
    CapChat(Messages(s.db, user, thread), cap);
    DecodedAll(Cap(Messages(s.db, user, thread), cap));
    CapTwice(Messages(s.db, user, thread), cap);
  }

  lemma CapChat(s: seq<Entry>, cap: nat)
    requires AllChat(s)
    ensures forall i | 0 <= i < |Cap(s, cap)| :: ChatRole(Cap(s, cap)[i].role)
  {
    hide ChatRole;
  }

  lemma {:induction false} RunSynced(ws: seq<Write>, cap: nat)
    requires forall i | 0 <= i < |ws| :: Good(ws[i])
    ensures Synced(AfterAll(NOTHING, cap, ws), cap)
    decreases |ws|
  {
    hide Good, Written;
    if ws == [] {
      NothingSynced(cap);
    } else {
      RunSynced(ws[..|ws| - 1], cap);
      WriteKeeps(AfterAll(NOTHING, cap, ws[..|ws| - 1]), cap, ws[|ws| - 1]);
    }
  }

  lemma NothingSynced(cap: nat)
    ensures Synced(NOTHING, cap)
  {
    hide HistoryKey, LegacyKey, GoodUser, GoodThread, KeyOf, Named;
    assert Ordered([]) == [];
    assert Cap<Entry>([], cap) == [];
  }

  /**
    Without the colon rule users share buckets: for every user whose name has a colon after a good
    user name, the other user reads what this one wrote, and the database disagrees.
  */
  lemma ColonUsersCollide(u: string, i: nat, t: string, e: Entry, cap: nat)
    requires i < |u| && u[i] == ':' && Trim(u) && GoodUser(u[..i]) && (i + 1 < |u| ==> !IsSpace(u[i + 1]))
    requires GoodThread(t) && ChatRole(e.role) && e.content != ""
    ensures var v, w := u[..i], u[i + 1..] + ":" + t;
            var s := Written(NOTHING, cap, AppendMessage(u, Some(t), e), true);
            && GoodUser(v) && GoodThread(w) && v != u
            && Messages(s.db, u, t) == [e]
            && History(s.chats, cap, v, w) == [e] && Messages(s.db, v, w) == []
  {
    hide Strip, KeyOf, Messages, Cap, Decoded, IsSpace, GoodUser, Appended, Pushed, HistoryKey, History, Settled;
    var v, w := u[..i], u[i + 1..] + ":" + t;
    OtherThread(u, i, t);
    GoodNames(v, w);
    StripFacts(t);
    StripFacts(u);
    assert NormalizeThread(Some(t)) == t;
    var s := Written(NOTHING, cap, AppendMessage(u, Some(t), e), true);
    ColonKeyShared(u, i, t);
    FirstPushed(u, t, e, cap, v, w);
    NoMessages(u, t);
    NoMessages(v, w);
    AppendLast(NOTHING.db, u, t, e);
    RoleTrim(e.role);
    NamedBoth(u, t);
    assert [] + [e] == [e];
    OtherMessages(NOTHING.db, s.db, KeyOf(u, t), v, w);
  }

  lemma NamedBoth(u: string, t: string)
    requires u != "" && t != "" && Strip(u) == u && Strip(t) == t
    ensures Named(u, t) && KeyOf(u, t) == (u, t)
  {
  }

  lemma OtherThread(u: string, i: nat, t: string)
    requires i < |u| && u[i] == ':' && (i + 1 < |u| ==> !IsSpace(u[i + 1])) && GoodThread(t)
    ensures var w := u[i + 1..] + ":" + t;
            GoodThread(w) && w != DEFAULT_THREAD
  {
    var w := u[i + 1..] + ":" + t;
    assert w[|u| - i - 1] == ':';
    assert w[0] == if i + 1 < |u| then u[i + 1] else ':';
    assert w[|w| - 1] == t[|t| - 1];
    assert ':' !in "threads" && ':' !in DEFAULT_THREAD;
  }

  /** The first message of one thread is the history of every thread with the same key. */
  lemma FirstPushed(u: string, t: string, e: Entry, cap: nat, v: string, w: string)
    requires ChatRole(e.role) && HistoryKey(u, t) == HistoryKey(v, w) && w != DEFAULT_THREAD
    ensures History(Pushed(NOTHING.chats, cap, u, t, e), cap, v, w) == [e]
  {
    hide HistoryKey, LegacyKey, Cap, Decoded;
    OneEntry(e, cap);
    assert [] + [e] == [e];
    var c := Pushed(NOTHING.chats, cap, u, t, e);
    assert ListAt(c, HistoryKey(v, w)) == [e];
  }

  lemma NoMessages(user: string, thread: string)
    ensures Messages(map[], user, thread) == []
  {
    assert Ordered([]) == [];
  }

  lemma OneEntry(e: Entry, cap: nat)
    requires ChatRole(e.role)
    ensures Cap([e], cap) == [e] && Decoded([e]) == [e]
  {
    DecodedAll([e]);
  }
}
