/** Redis first, the database as a best-effort mirror. */
module DualWrite {
  import opened Common
  import opened Text
  import opened Conversations
  import opened Chats

  datatype Both = Both(chats: Chats, db: Database)

  datatype Write =
    | EnsureThread(user: string, thread: Option<string>)
    | AppendMessage(user: string, thread: Option<string>, entry: Entry)
    | ClearThread(user: string, thread: Option<string>, preserve: bool)
    | ReplaceSnapshot(user: string, thread: Option<string>, messages: seq<Entry>)

  /** `_normalize_snapshot`: valid messages only, stripped. */
  function Snapshot(messages: seq<Entry>): seq<Entry> {
    if messages == [] then []
    else
      var n := |messages| - 1;
      var role, content := Strip(messages[n].role), Strip(messages[n].content);
      Snapshot(messages[..n]) + if ChatRole(role) && content != "" then [Entry(role, content)] else []
  }

  method NormalizeSnapshot(messages: seq<Entry>) returns (normalized: seq<Entry>)
    ensures normalized == Snapshot(messages)
  {
    hide Strip, ChatRole;
    normalized := [];
    for i := 0 to |messages|
      invariant normalized == Snapshot(messages[..i])
    {
      assert messages[..i + 1][..i] == messages[..i];
      var role, content := Strip(messages[i].role), Strip(messages[i].content);
      if !ChatRole(role) || content == "" {
        continue;
      }
      normalized := normalized + [Entry(role, content)];
    }
    assert messages[..|messages|] == messages;
  }

  function PushedAll(c: Chats, cap: nat, user: string, thread: string, messages: seq<Entry>): Chats {
    if messages == [] then c
    else
      var n := |messages| - 1;
      Pushed(PushedAll(c, cap, user, thread, messages[..n]), cap, user, thread,
             Entry(Strip(messages[n].role), Strip(messages[n].content)))
  }

  /** What a write does to Redis. */
  function Primary(c: Chats, cap: nat, w: Write): Chats {
    var thread := NormalizeThread(w.thread);
    match w
    case EnsureThread(user, _) => Touched(c, user, thread)
    case AppendMessage(user, _, e) => Pushed(c, cap, user, thread, e)
    case ClearThread(user, _, preserve) => Cleared(c, user, thread, preserve)
    case ReplaceSnapshot(user, _, messages) =>
      PushedAll(Cleared(c, user, thread, true), cap, user, thread, Snapshot(messages))
  }

  /** A refused mirror call changes nothing. */
  function OrSame(after: Option<Database>, db: Database): Database {
    if after.Some? then after.value else db
  }

  /** What a write does to the database. */
  function Mirrored(db: Database, w: Write): Database {
    var thread := NormalizeThread(w.thread);
    match w
    case EnsureThread(user, _) => OrSame(Created(db, user, thread), db)
    case AppendMessage(user, _, e) => OrSame(Appended(db, user, thread, e), db)
    case ClearThread(user, _, preserve) =>
      if preserve then Emptied(db, user, thread) else OrSame(Removed(db, user, thread), db)
    case ReplaceSnapshot(user, _, messages) => OrSame(Replaced(db, user, thread, Snapshot(messages)), db)
  }

  /** One coordinator call; `up` says whether the mirror call goes through. */
  function Written(s: Both, cap: nat, w: Write, up: bool): Both {
    Both(Primary(s.chats, cap, w), if up then Mirrored(s.db, w) else s.db)
  }

  // ---------------------------------------------------------------- the coordinator

  class Coordinator {
    const chats: ChatStore
    const db: ConversationStore
    const enabled: bool

    constructor (chats: ChatStore, db: ConversationStore, enabled: bool)
      ensures this.chats == chats && this.db == db && this.enabled == enabled
    {
      this.chats := chats;
      this.db := db;
      this.enabled := enabled;
    }

    function State(): Both
      reads chats, db
    {
      Both(chats.State(), db.threads)
    }

    /** `reachable` is whether the database answers. */
    method EnsureThread(user: string, thread: Option<string>, reachable: bool) returns (id: string)
      modifies chats, db
      ensures id == NormalizeThread(thread)
      ensures State() == Written(old(State()), chats.cap, Write.EnsureThread(user, thread), enabled && reachable)
    {
      id := chats.CreateThread(user, thread);
      if enabled && reachable {
        var _ := db.CreateOrGetThread(user, id);
      }
    }

    method AppendMessage(user: string, role: string, content: string, thread: Option<string>, reachable: bool)
      modifies chats, db
      ensures State() == Written(old(State()), chats.cap, Write.AppendMessage(user, thread, Entry(role, content)),
                                 enabled && reachable)
    {
      hide Appended, Pushed;
      chats.AppendMessage(user, role, content, thread);
      if enabled && reachable {
        var _ := db.AppendMessage(user, NormalizeThread(thread), role, content);
      }
    }

    method ClearThread(user: string, thread: Option<string>, preserve: bool, reachable: bool)
      modifies chats, db
      ensures State() == Written(old(State()), chats.cap, Write.ClearThread(user, thread, preserve),
                                 enabled && reachable)
    {
      hide Cleared, Emptied, Removed;
      chats.ClearHistory(user, thread, preserve);
      if enabled && reachable {
        if preserve {
          var _ := db.DeleteThreadMessages(user, NormalizeThread(thread));
        } else {
          var _ := db.DeleteThread(user, NormalizeThread(thread));
        }
      }
    }

    method ReplaceThreadSnapshot(user: string, thread: Option<string>, messages: seq<Entry>, reachable: bool)
      modifies chats, db
      ensures State() == Written(old(State()), chats.cap, ReplaceSnapshot(user, thread, messages), enabled && reachable)
    {
      hide Cleared, Pushed, Replaced, Snapshot, NormalizeThread, Strip;
      var normalized := NormalizeSnapshot(messages);
      var id := NormalizeThread(thread);
      chats.ClearHistory(user, thread, true);
      ghost var cleared := chats.State();
      for i := 0 to |normalized|
        invariant chats.State() == PushedAll(cleared, chats.cap, user, id, normalized[..i])
        invariant db.threads == old(db.threads)
      {
        assert normalized[..i + 1][..i] == normalized[..i];
        chats.AppendMessage(user, Strip(normalized[i].role), Strip(normalized[i].content), thread);
      }
      assert normalized[..|normalized|] == normalized;
      if enabled && reachable {
        var _ := db.ReplaceThreadSnapshot(user, id, normalized);
      }
    }
  }
}
