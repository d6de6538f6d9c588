/** The capped Redis chat store. */
module Chats {
  import opened Common
  import opened Text
  import opened Conversations

  const DEFAULT_THREAD := "default"

  /** Message lists by key, and the registry of threads per user. */
  datatype Chats = Chats(lists: map<string, seq<Entry>>, registry: set<(string, string)>)

  function NormalizeThread(thread: Option<string>): string {
    var name := if thread.Some? then Strip(thread.value) else "";
    if name != "" then name else DEFAULT_THREAD
  }

  function LegacyKey(user: string): string { "chat:" + user }

  function HistoryKey(user: string, thread: string): string { "chat:" + user + ":" + thread }

  function ListAt(c: Chats, key: string): seq<Entry> {
    if key in c.lists then c.lists[key] else []
  }

  /** The last `cap` elements; a cap of zero keeps all of them. */
  function Cap<T>(s: seq<T>, cap: nat): seq<T> {
    if cap == 0 || |s| <= cap then s else s[|s| - cap..]
  }

  predicate ChatRole(role: string) { role == "user" || role == "assistant" }

  function Decoded(s: seq<Entry>): seq<Entry> {
    if s == [] then []
    else Decoded(s[..|s| - 1]) + if ChatRole(s[|s| - 1].role) then [s[|s| - 1]] else []
  }

  // ---------------------------------------------------------------- operations

  function Touched(c: Chats, user: string, thread: string): Chats {
    c.(registry := c.registry + {(user, thread)})
  }

  /** `_migrate_legacy_default_history_if_needed`, for the default thread only. */
  function Settled(c: Chats, cap: nat, user: string, thread: string): Chats {
    var key, legacy := HistoryKey(user, thread), LegacyKey(user);
    if thread != DEFAULT_THREAD then c
    else if ListAt(c, key) != [] then Touched(c, user, thread)
    else if ListAt(c, legacy) == [] then c
    else Touched(c.(lists := c.lists[key := Cap(ListAt(c, legacy), cap)] - {legacy}), user, thread)
  }

  /** `append_message`. */
  function Pushed(c: Chats, cap: nat, user: string, thread: string, e: Entry): Chats {
    var settled := Settled(c, cap, user, thread);
    var key := HistoryKey(user, thread);
    Touched(settled.(lists := settled.lists[key := Cap(ListAt(settled, key) + [e], cap)]), user, thread)
  }

  /** `clear_history`. */
  function Cleared(c: Chats, user: string, thread: string, preserve: bool): Chats {
    var keys := {HistoryKey(user, thread)} + if thread == DEFAULT_THREAD then {LegacyKey(user)} else {};
    var left := c.(lists := c.lists - keys);
    if preserve then Touched(left, user, thread) else left.(registry := left.registry - {(user, thread)})
  }

  /** What `get_history` returns. */
  function History(c: Chats, cap: nat, user: string, thread: string): seq<Entry> {
    Cap(Decoded(ListAt(Settled(c, cap, user, thread), HistoryKey(user, thread))), cap)
  }

  /** What `get_history` leaves: a thread with messages is registered. */
  function Looked(c: Chats, cap: nat, user: string, thread: string): Chats {
    var settled := Settled(c, cap, user, thread);
    if History(c, cap, user, thread) != [] then Touched(settled, user, thread) else settled
  }

  class ChatStore {
    const cap: nat
    var lists: map<string, seq<Entry>>
    var registry: set<(string, string)>

    constructor (cap: nat)
      ensures this.cap == cap && State() == Chats(map[], {})
    {
      this.cap := cap;
      lists := map[];
      registry := {};
    }

    function State(): Chats
      reads this
    {
      Chats(lists, registry)
    }

    function At(key: string): seq<Entry>
      reads this
    {
      if key in lists then lists[key] else []
    }

    method MigrateLegacy(user: string, thread: string)
      requires thread == DEFAULT_THREAD
      modifies this
      ensures State() == Settled(old(State()), cap, user, thread)
    {
      var key, legacy := HistoryKey(user, thread), LegacyKey(user);
      if At(key) != [] {
        registry := registry + {(user, thread)};
        return;
      }
      if At(legacy) == [] {
        return;
      }
      lists := lists[key := Cap(At(legacy), cap)] - {legacy};
      registry := registry + {(user, thread)};
    }

    method CreateThread(user: string, thread: Option<string>) returns (id: string)
      modifies this
      ensures id == NormalizeThread(thread) && State() == Touched(old(State()), user, id)
    {
      id := NormalizeThread(thread);
      registry := registry + {(user, id)};
    }

    method AppendMessage(user: string, role: string, content: string, thread: Option<string>)
      modifies this
      ensures State() == Pushed(old(State()), cap, user, NormalizeThread(thread), Entry(role, content))
    {
      var id := NormalizeThread(thread);
      var key := HistoryKey(user, id);
      if id == DEFAULT_THREAD {
        MigrateLegacy(user, id);
      }
      lists := lists[key := Cap(At(key) + [Entry(role, content)], cap)];
      registry := registry + {(user, id)};
    }

    method GetHistory(user: string, thread: Option<string>) returns (history: seq<Entry>)
      modifies this
      ensures history == History(old(State()), cap, user, NormalizeThread(thread))
      ensures State() == Looked(old(State()), cap, user, NormalizeThread(thread))
    {
      var id := NormalizeThread(thread);
      if id == DEFAULT_THREAD {
        MigrateLegacy(user, id);
      }
      history := Cap(Decoded(At(HistoryKey(user, id))), cap);
      if history != [] {
        registry := registry + {(user, id)};
      }
    }

    method ClearHistory(user: string, thread: Option<string>, preserve: bool)
      modifies this
      ensures State() == Cleared(old(State()), user, NormalizeThread(thread), preserve)
    {
      var id := NormalizeThread(thread);
      if id == DEFAULT_THREAD {
        lists := lists - {HistoryKey(user, id), LegacyKey(user)};
      } else {
        lists := lists - {HistoryKey(user, id)};
      }
      assert lists == Cleared(old(State()), user, id, preserve).lists;
      if preserve {
        registry := registry + {(user, id)};
        return;
      }
      registry := registry - {(user, id)};
    }
  }

  // ---------------------------------------------------------------- keys and caps

  /** Keys of users without a colon name one thread each. */
  lemma KeysDiffer(u: string, t: string, v: string, w: string)
    requires ':' !in u && ':' !in v
    ensures HistoryKey(u, t) == HistoryKey(v, w) ==> u == v && t == w
    ensures HistoryKey(u, t) != LegacyKey(v)
  {
    var a, b := HistoryKey(u, t), HistoryKey(v, w);
    assert a[5..5 + |u|] == u && a[5 + |u|] == ':' && a[6 + |u|..] == t;
    assert b[5..5 + |v|] == v && b[5 + |v|] == ':' && b[6 + |v|..] == w;
    if |u| < |v| {
      assert b[5 + |u|] == v[|u|] && LegacyKey(v)[5 + |u|] == v[|u|];
    } else if |v| < |u| {
      assert a[5 + |v|] == u[|v|];
    }
  }

  /** Each colon in a user name gives another user, the part before it, with a thread of the same key. */
  lemma ColonKeyShared(u: string, i: nat, t: string)
    requires i < |u| && u[i] == ':'
    ensures u[..i] != u && HistoryKey(u[..i], u[i + 1..] + ":" + t) == HistoryKey(u, t)
  {
    assert u == u[..i] + ":" + u[i + 1..];
  }

  /** Capping early changes nothing. */
  lemma CapAppend<T>(s: seq<T>, x: T, cap: nat)
    ensures Cap(Cap(s, cap) + [x], cap) == Cap(s + [x], cap)
  {
    if cap != 0 && |s| > cap {
      assert (s[|s| - cap..] + [x])[1..] == (s + [x])[|s| + 1 - cap..];
    } else if cap != 0 && |s| == cap {
      assert Cap(s, cap) == s;
    }
  }

  lemma CapTwice<T>(s: seq<T>, cap: nat)
    ensures Cap(Cap(s, cap), cap) == Cap(s, cap)
  {
  }

  lemma {:induction false} DecodedAll(s: seq<Entry>)
    requires forall i | 0 <= i < |s| :: ChatRole(s[i].role)
    ensures Decoded(s) == s
  {
    hide ChatRole;
    if s != [] {
      DecodedAll(s[..|s| - 1]);
      assert s == s[..|s| - 1] + [s[|s| - 1]];
    }
  }

  // ---------------------------------------------------------------- the legacy list

  /** What a thread shows: its own list, or for a default thread without one the legacy list. */
  function Visible(c: Chats, cap: nat, user: string, thread: string): seq<Entry> {
    var own := ListAt(c, HistoryKey(user, thread));
    if own != [] || thread != DEFAULT_THREAD then own else Cap(ListAt(c, LegacyKey(user)), cap)
  }

  lemma KeysApart(user: string, thread: string)
    ensures HistoryKey(user, thread) != LegacyKey(user)
  {
    assert |HistoryKey(user, thread)| > |LegacyKey(user)|;
  }

  lemma CapSome<T>(s: seq<T>, cap: nat)
    ensures Cap(s, cap) == [] <==> s == []
  {
  }

  /** Settling shows the same, moves a legacy list once, registers what it found and touches nothing else. */
  lemma SettledShows(c: Chats, cap: nat, user: string, thread: string)
    ensures var s, shown := Settled(c, cap, user, thread), Visible(c, cap, user, thread);
            && ListAt(s, HistoryKey(user, thread)) == shown == Visible(s, cap, user, thread)
            && (thread == DEFAULT_THREAD && shown != [] ==> (user, thread) in s.registry)
            && (shown != ListAt(c, HistoryKey(user, thread)) ==> LegacyKey(user) !in s.lists)
            && forall key | key !in {HistoryKey(user, thread), LegacyKey(user)} :: ListAt(s, key) == ListAt(c, key)
  {
    KeysApart(user, thread);
    var key, legacy := HistoryKey(user, thread), LegacyKey(user);
    hide HistoryKey, LegacyKey, Cap;
    CapTwice(ListAt(c, legacy), cap);
    CapSome(ListAt(c, legacy), cap);
    if thread == DEFAULT_THREAD && ListAt(c, key) == [] && ListAt(c, legacy) != [] {
      var s := Settled(c, cap, user, thread);
      assert ListAt(s, key) == Cap(ListAt(c, legacy), cap);
      assert legacy !in s.lists;
    }
  }

  lemma {:induction false} DecodedConcat(a: seq<Entry>, b: seq<Entry>)
    ensures Decoded(a + b) == Decoded(a) + Decoded(b)
    decreases |b|
  {
    hide ChatRole;
    if b == [] {
      assert a + b == a;
    } else {
      var n := |b| - 1;
      assert (a + b)[..|a| + n] == a + b[..n] && (a + b)[|a| + n] == b[n];
      DecodedConcat(a, b[..n]);
    }
  }

  lemma {:induction false} DecodedIs(s: seq<Entry>)
    ensures |Decoded(s)| <= |s| && forall i | 0 <= i < |Decoded(s)| :: ChatRole(Decoded(s)[i].role)
    ensures forall e: Entry | ChatRole(e.role) :: multiset(Decoded(s))[e] == multiset(s)[e]
  {
    hide ChatRole;
    if s != [] {
      DecodedIs(s[..|s| - 1]);
      assert s == s[..|s| - 1] + [s[|s| - 1]];
    }
  }

  /** A history holds chat messages only, as many as the cap allows, and all there are while they fit. */
  lemma HistoryShows(c: Chats, cap: nat, user: string, thread: string)
    ensures var h, shown := History(c, cap, user, thread), Visible(c, cap, user, thread);
            && (forall i | 0 <= i < |h| :: h[i].role in {"user", "assistant"})
            && (cap > 0 ==> |h| <= cap)
            && (cap == 0 || |shown| <= cap ==>
                  forall e: Entry | e.role in {"user", "assistant"} :: multiset(h)[e] == multiset(shown)[e])
  {
    hide Settled, Visible, Decoded;
    SettledShows(c, cap, user, thread);
    DecodedIs(Visible(c, cap, user, thread));
  }

  /** An appended chat message is the last of the history; before it stand the latest of what was there. */
  lemma AppendShows(c: Chats, cap: nat, user: string, thread: string, e: Entry) returns (dropped: nat)
    requires ChatRole(e.role)
    ensures var was, now := History(c, cap, user, thread), History(Pushed(c, cap, user, thread, e), cap, user, thread);
            dropped <= |was| && now == was[dropped..] + [e] && (cap == 0 ==> dropped == 0)
    ensures (user, thread) in Pushed(c, cap, user, thread, e).registry
  {
    hide Settled, Visible, Decoded, ChatRole;
    var shown := Visible(c, cap, user, thread);
    var after := Pushed(c, cap, user, thread, e);
    SettledShows(c, cap, user, thread);
    SettledShows(after, cap, user, thread);
    var list := Cap(shown + [e], cap);
    ShownAfter(c, cap, user, thread, e);
    var cut := |shown + [e]| - |list|;
    assert shown + [e] == shown[..cut] + list && list == shown[cut..] + [e];
    DecodedConcat(shown[..cut], shown[cut..]);
    DecodedConcat(shown[cut..], [e]);
    assert shown == shown[..cut] + shown[cut..];
    DecodedOne(e);
    DecodedIs(shown[cut..]);
    var was, kept := History(c, cap, user, thread), Decoded(shown[cut..]);
    assert was == Cap(Decoded(shown[..cut]) + kept, cap);
    dropped := |was| - |kept|;
    assert was[dropped..] == kept;
  }

  lemma DecodedOne(e: Entry)
    ensures Decoded([e]) == if ChatRole(e.role) then [e] else []
  {
    assert [e][..0] == [];
  }

  lemma ShownAfter(c: Chats, cap: nat, user: string, thread: string, e: Entry)
    ensures Visible(Pushed(c, cap, user, thread, e), cap, user, thread) == Cap(Visible(c, cap, user, thread) + [e], cap)
    ensures (user, thread) in Pushed(c, cap, user, thread, e).registry
  {
    hide Settled, HistoryKey, LegacyKey;
    SettledShows(c, cap, user, thread);
  }

  /** Nothing of a cleared thread is left to show, not even a legacy list; every other list stays. */
  lemma ClearedShows(c: Chats, cap: nat, user: string, thread: string, preserve: bool)
    ensures var s := Cleared(c, user, thread, preserve);
            && History(s, cap, user, thread) == [] && ((user, thread) in s.registry <==> preserve)
            && forall key | key != HistoryKey(user, thread) && (thread == DEFAULT_THREAD ==> key != LegacyKey(user)) ::
                 ListAt(s, key) == ListAt(c, key)
  {
    hide HistoryKey, LegacyKey;
    SettledShows(Cleared(c, user, thread, preserve), cap, user, thread);
  }
}
