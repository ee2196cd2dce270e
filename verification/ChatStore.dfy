/** The chat session store: internal/llm/session_store.go. */
module ChatStore {
  import opened Basics
  import opened ContextCodec

  /** A stored message; createdAt 0 stands for the zero time. */
  datatype ChatMessage = ChatMessage(role: string, content: string, createdAt: int, clientId: string, inReplyTo: string)

  datatype Session = Session(userID: string, messages: seq<ChatMessage>, updatedAt: int)

  datatype Store = Store(
    sessions: map<string, Session>,
    ids: map<string, set<string>>,
    contexts: map<string, map<string, ProviderContext>>,
    ttl: int,
    limit: int)

  predicate Expired(session: Session, ttl: int, now: int) {
    now > session.updatedAt + ttl
  }

  predicate Live(st: Store, id: string, now: int) {
    id in st.sessions && !Expired(st.sessions[id], st.ttl, now)
  }

  function Dropped(st: Store, id: string): Store {
    st.(sessions := st.sessions - {id}, ids := st.ids - {id}, contexts := st.contexts - {id})
  }

  /** trimToLimit under the store's guard: the newest `limit` messages, all when there is no limit. */
  function Trimmed(messages: seq<ChatMessage>, limit: int): seq<ChatMessage> {
    if limit > 0 && |messages| > limit then messages[|messages| - limit..] else messages
  }

  function Stamped(msg: ChatMessage, now: int): ChatMessage {
    if msg.createdAt == 0 then msg.(createdAt := now) else msg
  }

  /** The session with one more message. */
  function Extended(st: Store, id: string, msg: ChatMessage, now: int): Session
    requires id in st.sessions
  {
    var m, s := Stamped(msg, now), st.sessions[id];
    s.(messages := Trimmed(s.messages + [m], st.limit), updatedAt := m.createdAt)
  }

  function KnownIds(st: Store, id: string): set<string> {
    if id in st.ids then st.ids[id] else {}
  }

  /** How AppendMessageOnce ends: no live session, an id seen before, or a new message. */
  datatype Receipt = Refused | Duplicate(messages: seq<ChatMessage>) | Added(messages: seq<ChatMessage>)

  function AppendOnce(st: Store, id: string, msg: ChatMessage, now: int): (Store, Receipt) {
    if !Live(st, id, now) then (Dropped(st, id), Refused)
    else if msg.clientId != "" && msg.clientId in KnownIds(st, id) then (st, Duplicate(st.sessions[id].messages))
    else
      var session := Extended(st, id, msg, now);
      var ids := if msg.clientId == "" then st.ids else st.ids[id := KnownIds(st, id) + {msg.clientId}];
      (st.(sessions := st.sessions[id := session], ids := ids), Added(session.messages))
  }

  predicate StorableContext(context: ProviderContext) {
    context.provider != "" && context.version > 0
  }

  function ContextsOf(st: Store, id: string): map<string, ProviderContext> {
    if id in st.contexts then st.contexts[id] else map[]
  }

  function Commit(st: Store, id: string, msg: ChatMessage, context: ProviderContext, now: int): (Store, bool) {
    if !Live(st, id, now) then (Dropped(st, id), false)
    else if !StorableContext(context) then (st, false)
    else
      (st.(sessions := st.sessions[id := Extended(st, id, msg, now)],
           contexts := st.contexts[id := ContextsOf(st, id)[context.provider := context]]), true)
  }

  function ContextFor(st: Store, id: string, provider: string, now: int): ProviderContext {
    if Live(st, id, now) && provider in ContextsOf(st, id) then st.contexts[id][provider] else NO_CONTEXT
  }

  /** The session newSession makes of the first n messages. */
  function OpenedTo(userID: string, initial: seq<ChatMessage>, now: int, n: nat): Session
    requires n <= |initial|
  {
    if n == 0 then Session(userID, [], now) else
    var m, front := Stamped(initial[n - 1], now), OpenedTo(userID, initial, now, n - 1);
    front.(messages := front.messages + [m], updatedAt := m.createdAt)
  }

  function ClientIds(messages: seq<ChatMessage>): set<string> {
    set i | 0 <= i < |messages| && messages[i].clientId != "" :: messages[i].clientId
  }

  /** A session that starts with messages: only those the limit keeps count as known. */
  function CreatedWith(st: Store, id: string, userID: string, initial: seq<ChatMessage>, now: int): Store {
    var whole := OpenedTo(userID, initial, now, |initial|);
    var session := whole.(messages := Trimmed(whole.messages, st.limit));
    st.(sessions := st.sessions[id := session], ids := st.ids[id := ClientIds(session.messages)])
  }

  function Created(st: Store, id: string, userID: string, now: int): Store {
    st.(sessions := st.sessions[id := Session(userID, [], now)], ids := st.ids[id := {}])
  }

  lemma CreatedWithNothing(st: Store, id: string, userID: string, now: int)
    ensures CreatedWith(st, id, userID, [], now) == Created(st, id, userID, now)
  {
    assert ClientIds([]) == {};
  }

  /** Every message a session keeps from its start can be sent again without effect. */
  lemma InitialMessagesAreKnown(st: Store, id: string, userID: string, initial: seq<ChatMessage>, now: int, i: nat)
    requires i < |CreatedWith(st, id, userID, initial, now).sessions[id].messages|
    requires Live(CreatedWith(st, id, userID, initial, now), id, now)
    ensures var t := CreatedWith(st, id, userID, initial, now);
            var m := t.sessions[id].messages[i];
            m.clientId != "" ==> AppendOnce(t, id, m, now) == (t, Duplicate(t.sessions[id].messages))
  {
    var t := CreatedWith(st, id, userID, initial, now);
    assert t.sessions[id].messages[i].clientId != "" ==> t.sessions[id].messages[i].clientId in KnownIds(t, id);
  }

  /** Get drops a session it finds expired. */
  function Fetched(st: Store, id: string, now: int): (Store, Option<Session>) {
    if Live(st, id, now) then (st, Some(st.sessions[id]))
    else (if id in st.sessions then Dropped(st, id) else st, None)
  }

  function ExpiredIds(st: Store, now: int): set<string> {
    set id | id in st.sessions && Expired(st.sessions[id], st.ttl, now)
  }

  function Cleaned(st: Store, now: int): Store {
    var gone := ExpiredIds(st, now);
    st.(sessions := st.sessions - gone, ids := st.ids - gone, contexts := st.contexts - gone)
  }

  // ----- What the operations do, by the fields of the store -----

  predicate AliveAt(st: Store, id: string, now: int) {
    id in st.sessions && now <= st.sessions[id].updatedAt + st.ttl
  }

  /** The session, its ids and its contexts are gone. */
  predicate Gone(st: Store, id: string) {
    id !in st.sessions && id !in st.ids && id !in st.contexts
  }

  /** Nothing but the session's own entries has changed. */
  predicate OnlyTouches(a: Store, b: Store, id: string) {
    && b.sessions - {id} == a.sessions - {id} && b.ids - {id} == a.ids - {id}
    && b.contexts - {id} == a.contexts - {id} && b.ttl == a.ttl && b.limit == a.limit
  }

  predicate StampedAs(m: ChatMessage, msg: ChatMessage, now: int) {
    && m.role == msg.role && m.content == msg.content && m.clientId == msg.clientId && m.inReplyTo == msg.inReplyTo
    && m.createdAt == if msg.createdAt == 0 then now else msg.createdAt
  }

  /** The message stands last, as many of the latest others before it as the limit leaves,
      and the session counts as used at the message's time. */
  predicate Appends(a: Session, b: Session, msg: ChatMessage, now: int, limit: int) {
    var n, k := |a.messages| + 1, |b.messages|;
    && k == (if 0 < limit < n then limit else n)
    && StampedAs(b.messages[k - 1], msg, now)
    && b.messages[..k - 1] == a.messages[n - k..]
    && b.updatedAt == b.messages[k - 1].createdAt && b.userID == a.userID
  }

  lemma ExtendedAppends(st: Store, id: string, msg: ChatMessage, now: int)
    requires id in st.sessions
    ensures Appends(st.sessions[id], Extended(st, id, msg, now), msg, now, st.limit)
  {
    var all := st.sessions[id].messages + [Stamped(msg, now)];
    var kept, n := Trimmed(all, st.limit), |all|;
    assert kept == all[n - |kept|..];
    assert kept[|kept| - 1] == all[n - 1];
  }

  lemma WithoutUpdated<V>(m: map<string, V>, id: string, v: V)
    ensures m[id := v] - {id} == m - {id}
  {
  }

  lemma WithoutRemoved<V>(m: map<string, V>, id: string)
    ensures m - {id} - {id} == m - {id}
  {
  }

  lemma DroppedTouches(st: Store, id: string)
    ensures OnlyTouches(st, Dropped(st, id), id) && Gone(Dropped(st, id), id)
  {
    WithoutRemoved(st.sessions, id);
    WithoutRemoved(st.ids, id);
    WithoutRemoved(st.contexts, id);
  }

  lemma AppendOnceExactly(st: Store, id: string, msg: ChatMessage, now: int)
    ensures var (after, receipt) := AppendOnce(st, id, msg, now);
            var seen := msg.clientId != "" && id in st.ids && msg.clientId in st.ids[id];
            && OnlyTouches(st, after, id)
            && (receipt.Refused? <==> !AliveAt(st, id, now))
            && (receipt.Duplicate? <==> AliveAt(st, id, now) && seen)
            && (receipt.Refused? ==> Gone(after, id))
            && (receipt.Duplicate? ==> after == st && receipt.messages == st.sessions[id].messages)
            && (receipt.Added? ==>
                  && id in after.sessions && Appends(st.sessions[id], after.sessions[id], msg, now, st.limit)
                  && receipt.messages == after.sessions[id].messages
                  && after.contexts == st.contexts
                  && (if msg.clientId == "" then after.ids == st.ids else
                        && id in after.ids && msg.clientId in after.ids[id]
                        && after.ids[id] == (if id in st.ids then st.ids[id] else {}) + {msg.clientId}))
  {
    if !AliveAt(st, id, now) {
      DroppedTouches(st, id);
    } else {
      ExtendedAppends(st, id, msg, now);
      WithoutUpdated(st.sessions, id, Extended(st, id, msg, now));
      WithoutUpdated(st.ids, id, KnownIds(st, id) + {msg.clientId});
    }
  }

  /** A commit takes a live session and a named, versioned context; then the message is
      appended and the context stands for its provider, and otherwise nothing is stored. */
  lemma CommitExactly(st: Store, id: string, msg: ChatMessage, context: ProviderContext, now: int)
    ensures var (after, ok) := Commit(st, id, msg, context, now);
            && OnlyTouches(st, after, id)
            && (ok <==> AliveAt(st, id, now) && context.provider != "" && context.version > 0)
            && (!AliveAt(st, id, now) ==> Gone(after, id))
            && (AliveAt(st, id, now) && !ok ==> after == st)
            && (ok ==>
                  && id in after.sessions && Appends(st.sessions[id], after.sessions[id], msg, now, st.limit)
                  && after.ids == st.ids
                  && id in after.contexts && context.provider in after.contexts[id]
                  && after.contexts[id][context.provider] == context
                  && after.contexts[id] - {context.provider}
                     == (if id in st.contexts then st.contexts[id] - {context.provider} else map[]))
  {
    if !AliveAt(st, id, now) {
      DroppedTouches(st, id);
    } else {
      var held := ContextsOf(st, id);
      ExtendedAppends(st, id, msg, now);
      WithoutUpdated(st.sessions, id, Extended(st, id, msg, now));
      WithoutUpdated(held, context.provider, context);
      WithoutUpdated(st.contexts, id, held[context.provider := context]);
      assert id !in st.contexts ==> held - {context.provider} == map[];
    }
  }

  /** What a commit stored is what loading that provider gives while the session lives;
      other providers and other sessions load what they loaded before. */
  lemma CommittedContextLoads(st: Store, id: string, msg: ChatMessage, context: ProviderContext, now: int,
        later: int)
    requires Commit(st, id, msg, context, now).1
    ensures var after := Commit(st, id, msg, context, now).0;
            && (AliveAt(after, id, later) ==>
                  && ContextFor(after, id, context.provider, later) == context
                  && forall p | p != context.provider ::
                       ContextFor(after, id, p, later)
                       == if id in st.contexts && p in st.contexts[id] then st.contexts[id][p] else NO_CONTEXT)
            && (!AliveAt(after, id, later) ==> forall p :: ContextFor(after, id, p, later) == NO_CONTEXT)
            && forall x, p | x != id :: ContextFor(after, x, p, later) == ContextFor(st, x, p, later)
  {
  }

  lemma FetchedExactly(st: Store, id: string, now: int)
    ensures var (after, found) := Fetched(st, id, now);
            && OnlyTouches(st, after, id)
            && (found.Some? <==> AliveAt(st, id, now))
            && (found.Some? ==> found.value == st.sessions[id])
            && (if AliveAt(st, id, now) || id !in st.sessions then after == st else Gone(after, id))
  {
  }

  lemma {:induction false} OpenedExactly(userID: string, initial: seq<ChatMessage>, now: int, n: nat)
    requires n <= |initial|
    ensures var s := OpenedTo(userID, initial, now, n);
            && s.userID == userID && |s.messages| == n
            && (forall i | 0 <= i < n :: StampedAs(s.messages[i], initial[i], now))
            && s.updatedAt == if n == 0 then now else s.messages[n - 1].createdAt
  {
    if n > 0 {
      OpenedExactly(userID, initial, now, n - 1);
    }
  }

  lemma TrimmedExactly(messages: seq<ChatMessage>, limit: int)
    ensures var kept, n := Trimmed(messages, limit), |messages|;
            && |kept| == (if 0 < limit < n then limit else n)
            && forall i | 0 <= i < |kept| :: kept[i] == messages[n - |kept| + i]
  {
  }

  predicate Opens(s: Session, userID: string, initial: seq<ChatMessage>, now: int, limit: int) {
    var n, k := |initial|, |s.messages|;
    && s.userID == userID && k == (if 0 < limit < n then limit else n)
    && (forall i | 0 <= i < k :: StampedAs(s.messages[i], initial[n - k + i], now))
    && s.updatedAt == (if k == 0 then now else s.messages[k - 1].createdAt)
  }

  lemma TrimmedOpens(whole: Session, userID: string, initial: seq<ChatMessage>, now: int, limit: int)
    requires whole == OpenedTo(userID, initial, now, |initial|)
    ensures Opens(whole.(messages := Trimmed(whole.messages, limit)), userID, initial, now, limit)
  {
    OpenedExactly(userID, initial, now, |initial|);
    TrimmedExactly(whole.messages, limit);
  }

  predicate KnowsExactly(ids: set<string>, messages: seq<ChatMessage>) {
    && (forall i | 0 <= i < |messages| && messages[i].clientId != "" :: messages[i].clientId in ids)
    && forall x | x in ids :: x != "" && exists i | 0 <= i < |messages| :: messages[i].clientId == x
  }

  lemma ClientIdsExactly(messages: seq<ChatMessage>)
    ensures KnowsExactly(ClientIds(messages), messages)
  {
  }

  /** A new session has the latest of its messages up to the limit, and knows their ids. */
  lemma CreatedExactly(st: Store, id: string, userID: string, initial: seq<ChatMessage>, now: int)
    ensures var after := CreatedWith(st, id, userID, initial, now);
            && OnlyTouches(st, after, id) && after.contexts == st.contexts
            && id in after.sessions && id in after.ids
            && Opens(after.sessions[id], userID, initial, now, st.limit)
            && KnowsExactly(after.ids[id], after.sessions[id].messages)
  {
    var after := CreatedWith(st, id, userID, initial, now);
    TrimmedOpens(OpenedTo(userID, initial, now, |initial|), userID, initial, now, st.limit);
    WithoutUpdated(st.sessions, id, after.sessions[id]);
    WithoutUpdated(st.ids, id, after.ids[id]);
    ClientIdsExactly(after.sessions[id].messages);
  }

  /** The session's own entries are as they were. */
  predicate Keeps(a: Store, b: Store, id: string) {
    && (id in b.sessions <==> id in a.sessions) && (id in a.sessions ==> b.sessions[id] == a.sessions[id])
    && (id in b.ids <==> id in a.ids) && (id in a.ids ==> b.ids[id] == a.ids[id])
    && (id in b.contexts <==> id in a.contexts) && (id in a.contexts ==> b.contexts[id] == a.contexts[id])
  }

  lemma CleanedExactly(st: Store, now: int)
    ensures var after := Cleaned(st, now);
            && after.ttl == st.ttl && after.limit == st.limit
            && forall x ::
                 var kept := x in st.sessions ==> AliveAt(st, x, now);
                 && (if kept then Keeps(st, after, x) else Gone(after, x))
  {
  }

  lemma ClientIdsSplit(messages: seq<ChatMessage>, n: nat)
    requires n < |messages|
    ensures ClientIds(messages[..n + 1])
         == ClientIds(messages[..n]) + if messages[n].clientId != "" then {messages[n].clientId} else {}
  {
    var all, front := messages[..n + 1], messages[..n];
    forall x | x in ClientIds(front)
      ensures x in ClientIds(all)
    {
      var i :| 0 <= i < n && front[i].clientId != "" && front[i].clientId == x;
      assert all[i] == front[i];
    }
    forall x | x in ClientIds(all) && x != messages[n].clientId
      ensures x in ClientIds(front)
    {
      var i :| 0 <= i <= n && all[i].clientId != "" && all[i].clientId == x;
      assert front[i] == all[i];
    }
    assert all[n] == messages[n];
  }

  lemma DropOneMore<K, V>(m: map<K, V>, gone: set<K>, key: K)
    ensures m - gone - {key} == m - (gone + {key})
  {
  }

  class InMemoryStore {
    var sessions: map<string, Session>
    var messageIDs: map<string, set<string>>
    var contexts: map<string, map<string, ProviderContext>>
    const ttl: int
    var maxMsgs: int

    ghost function Contents(): Store
      reads this
    {
      Store(sessions, messageIDs, contexts, ttl, maxMsgs)
    }

    constructor (ttl: int)
      ensures Contents() == Store(map[], map[], map[], if ttl <= 0 then 30 * 60 else ttl, 0)
    {
      sessions, messageIDs, contexts, maxMsgs := map[], map[], map[], 0;
      this.ttl := if ttl <= 0 then 30 * 60 else ttl;
    }

    method Delete(id: string)
      modifies this
      ensures Contents() == Dropped(old(Contents()), id)
    {
      sessions := sessions - {id};
      messageIDs := messageIDs - {id};
      contexts := contexts - {id};
    }

    static method NewSession(userID: string, initial: seq<ChatMessage>, now: int) returns (session: Session)
      ensures session == OpenedTo(userID, initial, now, |initial|)
    {
      session := Session(userID, [], now);
      for i := 0 to |initial|
        invariant session == OpenedTo(userID, initial, now, i)
      {
        var msg := initial[i];
        if msg.createdAt == 0 {
          msg := msg.(createdAt := now);
        }
        session := session.(messages := session.messages + [msg], updatedAt := msg.createdAt);
      }
    }

    static method ClientMessageIDs(messages: seq<ChatMessage>) returns (ids: set<string>)
      ensures ids == ClientIds(messages)
    {
      ids := {};
      for i := 0 to |messages|
        invariant ids == ClientIds(messages[..i])
      {
        if messages[i].clientId != "" {
          ids := ids + {messages[i].clientId};
        }
        ClientIdsSplit(messages, i);
      }
      assert messages[..|messages|] == messages;
    }

    method CreateSession(id: string, userID: string, initial: seq<ChatMessage>, now: int)
      modifies this
      ensures Contents() == CreatedWith(old(Contents()), id, userID, initial, now)
      ensures initial == [] ==> Contents() == Created(old(Contents()), id, userID, now)
    {
      var session := NewSession(userID, initial, now);
      if maxMsgs > 0 && |session.messages| > maxMsgs {
        session := session.(messages := session.messages[|session.messages| - maxMsgs..]);
      }
      sessions := sessions[id := session];
      var ids := ClientMessageIDs(session.messages);
      messageIDs := messageIDs[id := ids];
      CreatedWithNothing(old(Contents()), id, userID, now);
    }

    method Get(id: string, now: int) returns (session: Option<Session>)
      modifies this
      ensures (Contents(), session) == Fetched(old(Contents()), id, now)
    {
      if id !in sessions || Expired(sessions[id], ttl, now) {
        if id in sessions {
          Delete(id);
        }
        return None;
      }
      session := Some(sessions[id]);
    }

    method GetProviderContext(id: string, provider: string, now: int) returns (context: ProviderContext, found: bool)
      ensures context == ContextFor(Contents(), id, provider, now)
      ensures found <==> AliveAt(Contents(), id, now) && id in contexts && provider in contexts[id]
      ensures if found then context == contexts[id][provider] else context == NO_CONTEXT
    {
      if id !in sessions || Expired(sessions[id], ttl, now) {
        return NO_CONTEXT, false;
      }
      if id !in contexts || provider !in contexts[id] {
        return NO_CONTEXT, false;
      }
      return contexts[id][provider], true;
    }

    /** The common tail of the appending operations. */
    method Append(id: string, msg: ChatMessage, now: int) returns (messages: seq<ChatMessage>)
      requires id in sessions
      modifies `sessions
      ensures sessions == old(sessions)[id := Extended(old(Contents()), id, msg, now)]
      ensures messages == sessions[id].messages
    {
      var stamped := if msg.createdAt == 0 then msg.(createdAt := now) else msg;
      var session := sessions[id].(messages := sessions[id].messages + [stamped], updatedAt := stamped.createdAt);
      if maxMsgs > 0 && |session.messages| > maxMsgs {
        session := session.(messages := session.messages[|session.messages| - maxMsgs..]);
      }
      sessions := sessions[id := session];
      messages := session.messages;
    }

    method AppendMessageOnce(id: string, msg: ChatMessage, now: int) returns (receipt: Receipt)
      modifies this
      ensures (Contents(), receipt) == AppendOnce(old(Contents()), id, msg, now)
    {
      if id !in sessions || Expired(sessions[id], ttl, now) {
        Delete(id);
        return Refused;
      }
      if msg.clientId != "" {
        if id in messageIDs && msg.clientId in messageIDs[id] {
          return Duplicate(sessions[id].messages);
        }
        messageIDs := messageIDs[id := (if id in messageIDs then messageIDs[id] else {}) + {msg.clientId}];
      }
      var messages := Append(id, msg, now);
      receipt := Added(messages);
    }

    method CommitAssistantTurn(id: string, msg: ChatMessage, context: ProviderContext, now: int) returns (ok: bool)
      modifies this
      ensures (Contents(), ok) == Commit(old(Contents()), id, msg, context, now)
    {
      if id !in sessions || Expired(sessions[id], ttl, now) {
        Delete(id);
        return false;
      }
      if context.provider == "" || context.version <= 0 {
        return false;
      }
      var messages := Append(id, msg, now);
      var previous := if id in contexts then contexts[id] else map[];
      contexts := contexts[id := previous[context.provider := context]];
      ok := true;
    }

    method Cleanup(now: int)
      modifies this
      ensures Contents() == Cleaned(old(Contents()), now)
    {
      ghost var expired, gone: set<string> := ExpiredIds(Contents(), now), {};
      var pending := sessions.Keys;
      while pending != {}
        invariant pending <= old(sessions).Keys && gone <= expired
        invariant forall id | id in expired :: id in pending || id in gone
        invariant forall id | id in pending :: id !in gone
        invariant sessions == old(sessions) - gone
        invariant messageIDs == old(messageIDs) - gone
        invariant contexts == old(contexts) - gone
        invariant maxMsgs == old(maxMsgs)
        decreases |pending|
      {
        var id :| id in pending;
        pending := pending - {id};
        if Expired(sessions[id], ttl, now) {
          DropOneMore(old(sessions), gone, id);
          DropOneMore(old(messageIDs), gone, id);
          DropOneMore(old(contexts), gone, id);
          gone := gone + {id};
          Delete(id);
        }
      }
      assert gone == expired;
    }
  }
}
