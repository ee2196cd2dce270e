/** What becomes of a client's message: which are never answered, and which replies
    directly follow the message they answer: internal/httpapi/copilot_chat.go. */
module CopilotReplies {
  import opened ContextCodec
  import opened ChatStore
  import opened CopilotTurn

  // ----- Messages that are never answered -----

  predicate Known(store: Store, s: string, id: string) {
    s in store.sessions ==> id in KnownIds(store, s)
  }

  predicate Replied(sh: Shared, s: string, id: string) {
    exists r | 0 <= r < |sh.replies| :: RepliesTo(sh.replies[r], s, id)
  }

  predicate RepliesTo(r: Reply, s: string, id: string) {
    r.sessionID == s && r.message.inReplyTo == id
  }

  /** No turn of this connection works on the message. */
  predicate Free(conn: Conn, s: string, id: string) {
    conn.sessionID == s ==>
      && (conn.reader.Launching? ==> conn.reader.turn.clientId != id)
      && forall i | 0 <= i < |conn.turns| && !conn.turns[i].phase.Done? :: conn.turns[i].clientId != id
  }

  /** The message is stored, has no reply, and no turn works on it. */
  predicate Abandoned(w: World, s: string, id: string) {
    && s in w.shared.created && Known(w.shared.store, s, id) && !Replied(w.shared, s, id)
    && forall c | 0 <= c < |w.conns| :: Free(w.conns[c], s, id)
  }

  predicate Quiet(sh: Shared, conn: Conn, s: string, id: string) {
    s in sh.created && Known(sh.store, s, id) && !Replied(sh, s, id) && Free(conn, s, id)
  }

  lemma ReaderStaysQuiet(isId: string -> bool, conn: Conn, c: nat, sh: Shared, newId: string, fault: Fault,
        s: string, id: string)
    requires !isId("") && SharedOk(sh) && ConnOk(isId, conn, c, sh) && Quiet(sh, conn, s, id)
    ensures var r := ReaderStep(conn, c, sh, newId, fault);
            Quiet(r.1, r.0, s, id)
  {
  }

  lemma TurnStaysQuiet(isId: string -> bool, conn: Conn, c: nat, i: nat, sh: Shared, fault: Fault, text: string,
        context: ProviderContext, s: string, id: string)
    requires ConnOk(isId, conn, c, sh) && Quiet(sh, conn, s, id) && i < |conn.turns|
    ensures var r := TurnStep(conn, i, sh, fault, text, context);
            Quiet(r.1, r.0, s, id)
  {
    var r, turn := TurnStep(conn, i, sh, fault, text, context), conn.turns[i];
    assert Owned(turn, conn, c, sh);
    forall q | 0 <= q < |r.1.replies|
      ensures !RepliesTo(r.1.replies[q], s, id)
    {
      assert q < |sh.replies| ==> r.1.replies[q] == sh.replies[q];
    }
  }

  lemma StepAbandons(isId: string -> bool, w: World, step: Step, s: string, id: string)
    requires !isId("") && Inv(isId, w) && Abandoned(w, s, id)
    ensures Abandoned(Apply(isId, w, step), s, id)
  {
    match step
    case Proceed(c, newId, fault) =>
      if c < |w.conns| {
        ReaderStaysQuiet(isId, w.conns[c], c, w.shared, newId, fault, s, id);
      }
    case Work(c, i, fault, text, context) =>
      if c < |w.conns| && i < |w.conns[c].turns| {
        TurnStaysQuiet(isId, w.conns[c], c, i, w.shared, fault, text, context, s, id);
      }
    case _ =>
  }

  /** A stored message without a reply and without a turn stays so, whatever is
      resended on however many connections. */
  lemma {:induction false} AbandonedForGood(isId: string -> bool, w: World, steps: seq<Step>, n: nat, s: string,
        id: string)
    requires !isId("") && Inv(isId, w) && Abandoned(w, s, id) && n <= |steps|
    ensures Abandoned(RunTo(isId, w, steps, n), s, id)
  {
    if n > 0 {
      AbandonedForGood(isId, w, steps, n - 1, s, id);
      RunKeeps(isId, w, steps, n - 1);
      StepAbandons(isId, RunTo(isId, w, steps, n - 1), steps[n - 1], s, id);
    }
  }

  // ----- How a message comes to that -----

  lemma OwnedIsUnreplied(turn: Turn, conn: Conn, c: nat, sh: Shared)
    requires SharedOk(sh) && Owned(turn, conn, c, sh) && !turn.phase.Done?
    ensures !Replied(sh, conn.sessionID, turn.clientId) && Known(sh.store, conn.sessionID, turn.clientId)
  {
    assert Remembered(sh.store, sh.accepted[turn.index]);
    forall r | 0 <= r < |sh.replies|
      ensures !RepliesTo(sh.replies[r], conn.sessionID, turn.clientId)
    {
      assert ReplyOk(sh.replies[r], sh.accepted);
      assert sh.replies[r].turn != turn.index;
      assert !SameMessage(sh.accepted[sh.replies[r].turn], sh.accepted[turn.index]);
    }
  }

  lemma DistinctMessages(sh: Shared, j: nat, k: nat)
    requires SharedOk(sh) && j < |sh.accepted| && k < |sh.accepted| && SameMessage(sh.accepted[j], sh.accepted[k])
    ensures j == k
  {
  }

  /** Two turns on one message are turns of one connection. */
  lemma OneServer(turn: Turn, conn: Conn, c: nat, other: Turn, rival: Conn, d: nat, sh: Shared)
    requires SharedOk(sh) && Owned(turn, conn, c, sh) && Owned(other, rival, d, sh)
    requires rival.sessionID == conn.sessionID && other.clientId == turn.clientId
    ensures c == d
  {
    DistinctMessages(sh, turn.index, other.index);
  }

  lemma OthersAreFree(isId: string -> bool, w: World, turn: Turn, c: nat, d: nat)
    requires Inv(isId, w) && c < |w.conns| && d < |w.conns| && c != d && Owned(turn, w.conns[c], c, w.shared)
    ensures Free(w.conns[d], w.conns[c].sessionID, turn.clientId)
  {
    var conn, rival := w.conns[c], w.conns[d];
    if rival.sessionID == conn.sessionID {
      if rival.reader.Launching? && rival.reader.turn.clientId == turn.clientId {
        OneServer(turn, conn, c, rival.reader.turn, rival, d, w.shared);
      }
      forall i | 0 <= i < |rival.turns|
        ensures rival.turns[i].clientId != turn.clientId
      {
        assert Owned(rival.turns[i], rival, d, w.shared);
        if rival.turns[i].clientId == turn.clientId {
          OneServer(turn, conn, c, rival.turns[i], rival, d, w.shared);
        }
      }
    }
  }

  /** The next step of the turn ends it without a reply. */
  predicate Fails(conn: Conn, i: nat, sh: Shared, fault: Fault)
    requires i < |conn.turns| && !conn.turns[i].phase.Done?
  {
    match conn.turns[i].phase
    case Storing(_, newContext) =>
      fault.Lost? || !Live(sh.store, conn.sessionID, sh.now) || !StorableContext(newContext)
    case _ => !fault.Clean?
  }

  /** A step of a turn leaves its message abandoned exactly when it fails: the load,
      the run, or the commit. */
  lemma TurnAbandonsExactly(isId: string -> bool, w: World, c: nat, i: nat, fault: Fault, text: string,
        context: ProviderContext)
    requires Inv(isId, w) && c < |w.conns| && i < |w.conns[c].turns| && !w.conns[c].turns[i].phase.Done?
    ensures var conn := w.conns[c];
            (Abandoned(Apply(isId, w, Work(c, i, fault, text, context)), conn.sessionID, conn.turns[i].clientId)
             <==> Fails(conn, i, w.shared, fault))
  {
    var conn, sh := w.conns[c], w.shared;
    var turn, after := conn.turns[i], Apply(isId, w, Work(c, i, fault, text, context));
    assert Owned(turn, conn, c, sh);
    OwnedIsUnreplied(turn, conn, c, sh);
    if Fails(conn, i, sh, fault) {
      forall d | 0 <= d < |w.conns|
        ensures Free(after.conns[d], conn.sessionID, turn.clientId)
      {
        if d != c {
          OthersAreFree(isId, w, turn, c, d);
        }
      }
    } else if turn.phase.Storing? {
      assert RepliesTo(after.shared.replies[|sh.replies|], conn.sessionID, turn.clientId);
    } else {
      assert after.conns[c].turns[i].clientId == turn.clientId;
    }
  }

  /** A new message is abandoned at once exactly when the store reports an error
      after it has stored it. */
  lemma AppendAbandonsExactly(isId: string -> bool, w: World, c: nat, newId: string, fault: Fault)
    requires !isId("") && Inv(isId, w) && c < |w.conns| && w.conns[c].reader.Accepting?
    requires Live(w.shared.store, w.conns[c].sessionID, w.shared.now)
    requires w.conns[c].reader.msg.clientId !in KnownIds(w.shared.store, w.conns[c].sessionID)
    ensures var conn := w.conns[c];
            (Abandoned(Apply(isId, w, Proceed(c, newId, fault)), conn.sessionID, conn.reader.msg.clientId)
             <==> fault.Late?)
  {
    var conn, sh, after := w.conns[c], w.shared, Apply(isId, w, Proceed(c, newId, fault));
    var s, id := conn.sessionID, conn.reader.msg.clientId;
    if fault.Late? {
      forall r | 0 <= r < |sh.replies|
        ensures !RepliesTo(sh.replies[r], s, id)
      {
        assert ReplyOk(sh.replies[r], sh.accepted) && Remembered(sh.store, sh.accepted[sh.replies[r].turn]);
      }
      forall d | 0 <= d < |w.conns|
        ensures Free(after.conns[d], s, id)
      {
        UnknownIsFree(isId, w, d, s, id);
      }
      assert Known(after.shared.store, s, id) && !Replied(after.shared, s, id);
    } else if fault.Clean? {
      assert !Free(after.conns[c], s, id);
    } else {
      assert !Known(after.shared.store, s, id);
    }
  }

  lemma UnknownIsFree(isId: string -> bool, w: World, d: nat, s: string, id: string)
    requires Inv(isId, w) && d < |w.conns| && !Known(w.shared.store, s, id)
    ensures Free(w.conns[d], s, id)
  {
    var conn, sh := w.conns[d], w.shared;
    if conn.reader.Launching? {
      assert Remembered(sh.store, sh.accepted[conn.reader.turn.index]);
    }
    forall i | 0 <= i < |conn.turns| && conn.sessionID == s
      ensures conn.turns[i].clientId != id
    {
      assert Owned(conn.turns[i], conn, d, sh) && Remembered(sh.store, sh.accepted[conn.turns[i].index]);
    }
  }

  /** On an idle connection a message starts a turn exactly when the session is live
      and has not stored its id. */
  lemma SendStartsExactly(isId: string -> bool, w: World, c: nat, id: string, content: string, image: string,
        newId: string)
    requires !isId("") && isId(id) && (content != "" || image != "")
    requires c < |w.conns| && w.conns[c].reader.Waiting? && !w.conns[c].turnActive
    ensures var conn, store := w.conns[c], w.shared.store;
            var sent := Apply(isId, Apply(isId, w, Read(c, UserMessage(id, content, image))), Proceed(c, newId, Clean));
            (sent.conns[c].reader.Launching?
             <==> Live(store, conn.sessionID, w.shared.now) && id !in KnownIds(store, conn.sessionID))
  {
    var read := Apply(isId, w, Read(c, UserMessage(id, content, image)));
    assert read.conns[c].reader.msg.clientId == id && read.shared == w.shared;
  }

  // ----- Two runs that abandon a message -----

  const USABLE := ProviderContext(ANTHROPIC_PROVIDER, ANTHROPIC_CONTEXT_VERSION, [])

  const FIRST := ChatMessage("user", "first", 1, "a", "")
  const SECOND := ChatMessage("user", "second", 1, "b", "")

  const CONNECT := Connect("cmdr", "", "s")
  const SEND := Read(0, UserMessage("a", "first", ""))
  const GO_ON := Proceed(0, "", Clean)

  /** The context of the first turn cannot be loaded; the client resends. */
  const FAILED_LOAD: seq<Step> :=
    [CONNECT, SEND, GO_ON, GO_ON, Work(0, 0, Lost, "", USABLE), Work(0, 0, Clean, "", USABLE), SEND, GO_ON]

  /** The store stores the message and reports an error; the client resends. */
  const LATE_ERROR: seq<Step> := [CONNECT, SEND, Proceed(0, "", Late), GO_ON, SEND, GO_ON]

  lemma RunTwo(isId: string -> bool, w: World, steps: seq<Step>, n: nat)
    requires n + 2 <= |steps|
    ensures RunTo(isId, w, steps, n + 2) == Apply(isId, Apply(isId, RunTo(isId, w, steps, n), steps[n]), steps[n + 1])
  {
    assert RunTo(isId, w, steps, n + 1) == Apply(isId, RunTo(isId, w, steps, n), steps[n]);
  }

  predicate Stored(sh: Shared, messages: seq<ChatMessage>, known: set<string>) {
    && Live(sh.store, "s", 1) && sh.now == 1 && sh.store.limit == 0 && sh.store.ttl == 60
    && sh.store.sessions["s"].messages == messages && sh.store.sessions["s"].userID == "cmdr"
    && KnownIds(sh.store, "s") == known
    && sh.created == {"s"} && sh.replies == []
  }

  /** The one connection is as given, and "first" is stored without a reply. */
  predicate OneTab(w: World, conn: Conn) {
    w.conns == [conn] && Stored(w.shared, [FIRST], {"a"})
  }

  lemma FirstSent(isId: string -> bool)
    requires isId("a")
    ensures var w := Apply(isId, Apply(isId, Initial(60, 0, 1), CONNECT), SEND);
            && w.conns == [Conn("cmdr", "s", true, Accepting(FIRST), [])]
            && Stored(w.shared, [], {}) && w.shared.accepted == []
  {
  }

  const TURN := Turn(0, "a", [], Loading)

  lemma FirstAppended(isId: string -> bool, w: World)
    requires w.conns == [Conn("cmdr", "s", true, Accepting(FIRST), [])]
    requires Stored(w.shared, [], {}) && w.shared.accepted == []
    ensures OneTab(Apply(isId, w, GO_ON), Conn("cmdr", "s", true, Launching(TURN), []))
  {
    assert [FIRST][..0] == [];
  }

  lemma FirstLaunched(isId: string -> bool)
    requires isId("a")
    ensures OneTab(RunTo(isId, Initial(60, 0, 1), FAILED_LOAD, 4), Conn("cmdr", "s", true, Waiting, [TURN]))
  {
    FirstSent(isId);
    RunTwo(isId, Initial(60, 0, 1), FAILED_LOAD, 0);
    FirstAppended(isId, RunTo(isId, Initial(60, 0, 1), FAILED_LOAD, 2));
    assert [] + [TURN] == [TURN];
    RunTwo(isId, Initial(60, 0, 1), FAILED_LOAD, 2);
  }

  lemma FirstStops(isId: string -> bool, w: World)
    requires OneTab(w, Conn("cmdr", "s", true, Waiting, [TURN]))
    ensures OneTab(Apply(isId, w, Work(0, 0, Lost, "", USABLE)),
                   Conn("cmdr", "s", true, Waiting, [TURN.(phase := Done)]))
  {
    assert [TURN][0 := TURN.(phase := Done)] == [TURN.(phase := Done)];
  }

  lemma FirstCleared(isId: string -> bool, w: World)
    requires OneTab(w, Conn("cmdr", "s", true, Waiting, [TURN.(phase := Done)]))
    ensures OneTab(Apply(isId, w, Work(0, 0, Clean, "", USABLE)), Conn("cmdr", "s", false, Waiting, []))
  {
    assert Removed([TURN.(phase := Done)], 0) == [];
  }

  lemma FirstFailed(isId: string -> bool)
    requires isId("a")
    ensures OneTab(RunTo(isId, Initial(60, 0, 1), FAILED_LOAD, 6), Conn("cmdr", "s", false, Waiting, []))
  {
    FirstLaunched(isId);
    var w := RunTo(isId, Initial(60, 0, 1), FAILED_LOAD, 4);
    FirstStops(isId, w);
    FirstCleared(isId, Apply(isId, w, Work(0, 0, Lost, "", USABLE)));
    RunTwo(isId, Initial(60, 0, 1), FAILED_LOAD, 4);
  }

  /** After a failed turn the resent message is a duplicate, and nobody will answer it. */
  lemma ResendAfterFailedTurn(isId: string -> bool)
    requires isId("a")
    ensures var w := RunTo(isId, Initial(60, 0, 1), FAILED_LOAD, |FAILED_LOAD|);
            OneTab(w, Conn("cmdr", "s", true, Releasing, [])) && Abandoned(w, "s", "a")
  {
    FirstFailed(isId);
    RunTwo(isId, Initial(60, 0, 1), FAILED_LOAD, 6);
  }

  lemma FirstLate(isId: string -> bool)
    requires isId("a")
    ensures OneTab(RunTo(isId, Initial(60, 0, 1), LATE_ERROR, 4), Conn("cmdr", "s", false, Waiting, []))
    ensures RunTo(isId, Initial(60, 0, 1), LATE_ERROR, 4).shared.accepted == []
  {
    FirstSent(isId);
    RunTwo(isId, Initial(60, 0, 1), LATE_ERROR, 0);
    RunTwo(isId, Initial(60, 0, 1), LATE_ERROR, 2);
  }

  /** After an append that failed late there never was a turn, and there never will be. */
  lemma ResendAfterLateError(isId: string -> bool)
    requires isId("a")
    ensures var w := RunTo(isId, Initial(60, 0, 1), LATE_ERROR, |LATE_ERROR|);
            && OneTab(w, Conn("cmdr", "s", true, Releasing, [])) && w.shared.accepted == []
            && Abandoned(w, "s", "a")
  {
    FirstLate(isId);
    RunTwo(isId, Initial(60, 0, 1), LATE_ERROR, 4);
  }

  // ----- Replies that directly follow their message -----

  /** Every reply directly follows the message it answers; a reply can stand first
      only where older messages were trimmed away. */
  predicate Adjacent(messages: seq<ChatMessage>, limit: int) {
    forall i | 0 <= i < |messages| :: AdjacentAt(messages, limit, i)
  }

  predicate AdjacentAt(messages: seq<ChatMessage>, limit: int, i: nat)
    requires i < |messages|
  {
    messages[i].role == "assistant" ==> if i == 0 then limit > 0 else Answers(messages[i], messages[i - 1])
  }

  predicate Answers(reply: ChatMessage, asked: ChatMessage) {
    asked.role == "user" && asked.clientId == reply.inReplyTo
  }

  predicate Transcript(store: Store, s: string) {
    s in store.sessions ==> Adjacent(store.sessions[s].messages, store.limit)
  }

  /** One more message leaves a list adjacent exactly when it is no reply, or
      follows what it answers, or is all that the limit lets stay. */
  lemma AdjacentGrowsExactly(messages: seq<ChatMessage>, m: ChatMessage, limit: int)
    requires Adjacent(messages, limit)
    ensures var r := Trimmed(messages + [m], limit);
            && r != [] && r[|r| - 1] == m
            && (Adjacent(r, limit) <==> || m.role != "assistant" || limit == 1
                                        || (if messages == [] then limit > 0 else Answers(m, messages[|messages| - 1])))
  {
    var all := messages + [m];
    var r := Trimmed(all, limit);
    var k := |all| - |r|;
    forall i | 0 <= i < |r| - 1
      ensures AdjacentAt(r, limit, i)
    {
      assert r[i] == all[k + i] && (i > 0 ==> r[i - 1] == all[k + i - 1]);
      assert AdjacentAt(messages, limit, k + i);
    }
    assert |r| > 1 ==> r[|r| - 2] == messages[|messages| - 1];
    assert Adjacent(r, limit) <==> AdjacentAt(r, limit, |r| - 1);
  }

  /** The transcript is the history the turn was given, then the message it answers. */
  predicate Faces(turn: Turn, store: Store, s: string) {
    s in store.sessions ==>
      var messages := store.sessions[s].messages;
      && messages != []
      && messages[..|messages| - 1] == turn.history
      && messages[|messages| - 1].role == "user"
      && messages[|messages| - 1].clientId == turn.clientId
  }

  /** The turn's message, if it is still the last one, is so because nothing was
      appended since. */
  predicate LastIsOwn(turn: Turn, store: Store, s: string) {
    s in store.sessions ==>
      var messages := store.sessions[s].messages;
      && messages != []
      && (messages[|messages| - 1].role == "user" && messages[|messages| - 1].clientId == turn.clientId
          ==> Faces(turn, store, s))
  }

  predicate ConnLast(conn: Conn, store: Store) {
    && (conn.reader.Launching? ==> LastIsOwn(conn.reader.turn, store, conn.sessionID))
    && forall i | 0 <= i < |conn.turns| && !conn.turns[i].phase.Done? ::
         LastIsOwn(conn.turns[i], store, conn.sessionID)
  }

  ghost predicate LastsOwn(w: World) {
    forall c | 0 <= c < |w.conns| :: ConnLast(w.conns[c], w.shared.store)
  }

  /** The messages of s are as they were, or s is gone, or s is new. */
  predicate Untouched(a: Shared, b: Shared, s: string) {
    && b.store.limit == a.store.limit
    && (s in b.store.sessions ==>
          || (s in a.store.sessions && b.store.sessions[s].messages == a.store.sessions[s].messages)
          || (s !in a.created && b.store.sessions[s].messages == []))
  }

  /** One message, a reply or one with a new id, was appended to s. */
  ghost predicate Appended(a: Shared, b: Shared, s: string, m: ChatMessage) {
    && b.store.limit == a.store.limit && s in a.store.sessions
    && s in b.store.sessions
    && b.store.sessions[s].messages == Trimmed(a.store.sessions[s].messages + [m], a.store.limit)
    && (m.role == "assistant" || (m.role == "user" && m.clientId !in KnownIds(a.store, s)))
  }

  /** What the others may make of it. */
  ghost predicate Shifts(a: Shared, b: Shared, s: string) {
    Untouched(a, b, s) || exists m :: Appended(a, b, s, m)
  }

  lemma ReaderShifts(isId: string -> bool, conn: Conn, c: nat, sh: Shared, newId: string, fault: Fault, s: string)
    requires !isId("") && ConnOk(isId, conn, c, sh)
    ensures Shifts(sh, ReaderStep(conn, c, sh, newId, fault).1, s)
  {
    var after := ReaderStep(conn, c, sh, newId, fault).1;
    if conn.reader.Accepting? && conn.sessionID == s && !Untouched(sh, after, s) {
      assert Appended(sh, after, s, Stamped(conn.reader.msg, sh.now));
    }
  }

  lemma TurnShifts(conn: Conn, c: nat, i: nat, sh: Shared, fault: Fault, text: string, context: ProviderContext,
        s: string)
    requires i < |conn.turns| && Owned(conn.turns[i], conn, c, sh)
    ensures Shifts(sh, TurnStep(conn, i, sh, fault, text, context).1, s)
  {
    var after := TurnStep(conn, i, sh, fault, text, context).1;
    if conn.turns[i].phase.Storing? && conn.sessionID == s && !Untouched(sh, after, s) {
      assert Appended(sh, after, s, Stamped(conn.turns[i].phase.reply, sh.now));
    }
  }

  lemma TrimmedLast(messages: seq<ChatMessage>, m: ChatMessage, limit: int)
    ensures var r := Trimmed(messages + [m], limit);
            r != [] && r[|r| - 1] == m
  {
  }

  /** A turn whose message is known keeps LastIsOwn. */
  lemma ShiftKeepsOwn(turn: Turn, a: Shared, b: Shared, s: string)
    requires LastIsOwn(turn, a.store, s) && s in a.created && Known(a.store, s, turn.clientId) && Shifts(a, b, s)
    ensures LastIsOwn(turn, b.store, s)
  {
    if m :| Appended(a, b, s, m) {
      TrimmedLast(a.store.sessions[s].messages, m, a.store.limit);
    }
  }

  lemma ShiftKeepsConn(isId: string -> bool, conn: Conn, c: nat, a: Shared, b: Shared)
    requires SharedOk(a) && ConnOk(isId, conn, c, a) && ConnLast(conn, a.store) && Shifts(a, b, conn.sessionID)
    ensures ConnLast(conn, b.store)
  {
    if conn.reader.Launching? {
      assert Remembered(a.store, a.accepted[conn.reader.turn.index]);
      ShiftKeepsOwn(conn.reader.turn, a, b, conn.sessionID);
    }
    forall i | 0 <= i < |conn.turns| && !conn.turns[i].phase.Done?
      ensures LastIsOwn(conn.turns[i], b.store, conn.sessionID)
    {
      assert Owned(conn.turns[i], conn, c, a) && Remembered(a.store, a.accepted[conn.turns[i].index]);
      ShiftKeepsOwn(conn.turns[i], a, b, conn.sessionID);
    }
  }

  lemma AppendLast(isId: string -> bool, conn: Conn, c: nat, sh: Shared, fault: Fault)
    requires ConnOk(isId, conn, c, sh) && conn.reader.Accepting?
    ensures var r := AppendStep(conn, c, sh, conn.reader.msg, fault);
            r.0.reader.Launching? ==> Faces(r.0.reader.turn, r.1.store, conn.sessionID)
  {
    if Live(sh.store, conn.sessionID, sh.now) {
      TrimmedLast(sh.store.sessions[conn.sessionID].messages, Stamped(conn.reader.msg, sh.now), sh.store.limit);
    }
  }

  lemma OwnReaderLast(isId: string -> bool, conn: Conn, c: nat, sh: Shared, newId: string, fault: Fault)
    requires !isId("") && SharedOk(sh) && ConnOk(isId, conn, c, sh) && ConnLast(conn, sh.store)
    ensures var r := ReaderStep(conn, c, sh, newId, fault);
            ConnLast(r.0, r.1.store)
  {
    var r := ReaderStep(conn, c, sh, newId, fault);
    if conn.reader.Accepting? {
      AppendLast(isId, conn, c, sh, fault);
    }
    if conn.sessionID == r.0.sessionID {
      ReaderShifts(isId, conn, c, sh, newId, fault, conn.sessionID);
      ShiftKeepsConn(isId, conn, c, sh, r.1);
    }
  }

  lemma OwnTurnLast(isId: string -> bool, conn: Conn, c: nat, i: nat, sh: Shared, fault: Fault, text: string,
        context: ProviderContext)
    requires SharedOk(sh) && ConnOk(isId, conn, c, sh) && ConnLast(conn, sh.store) && i < |conn.turns|
    ensures var r := TurnStep(conn, i, sh, fault, text, context);
            ConnLast(r.0, r.1.store)
  {
    assert Owned(conn.turns[i], conn, c, sh) && |conn.turns| == 1;
  }

  lemma StepShifts(isId: string -> bool, w: World, step: Step, s: string)
    requires !isId("") && Inv(isId, w)
    ensures Shifts(w.shared, Apply(isId, w, step).shared, s)
  {
    match step
    case Proceed(c, newId, fault) =>
      if c < |w.conns| {
        ReaderShifts(isId, w.conns[c], c, w.shared, newId, fault, s);
      }
    case Work(c, i, fault, text, context) =>
      if c < |w.conns| && i < |w.conns[c].turns| {
        assert Owned(w.conns[c].turns[i], w.conns[c], c, w.shared);
        TurnShifts(w.conns[c], c, i, w.shared, fault, text, context, s);
      }
    case _ =>
  }

  lemma OtherLast(isId: string -> bool, w: World, step: Step, d: nat)
    requires !isId("") && Inv(isId, w) && LastsOwn(w) && d < |w.conns|
    ensures ConnLast(w.conns[d], Apply(isId, w, step).shared.store)
  {
    StepShifts(isId, w, step, w.conns[d].sessionID);
    ShiftKeepsConn(isId, w.conns[d], d, w.shared, Apply(isId, w, step).shared);
  }

  lemma StepKeepsLasts(isId: string -> bool, w: World, step: Step)
    requires !isId("") && Inv(isId, w) && LastsOwn(w)
    ensures LastsOwn(Apply(isId, w, step))
  {
    var after := Apply(isId, w, step);
    forall d | 0 <= d < |after.conns|
      ensures ConnLast(after.conns[d], after.shared.store)
    {
      if d < |w.conns| {
        OtherLast(isId, w, step, d);
        if step.Proceed? && step.c == d {
          OwnReaderLast(isId, w.conns[d], d, w.shared, step.newId, step.fault);
        } else if step.Work? && step.c == d && step.i < |w.conns[d].turns| {
          OwnTurnLast(isId, w.conns[d], d, step.i, w.shared, step.fault, step.text, step.context);
        }
      }
    }
  }

  lemma {:induction false} RunKeepsLasts(isId: string -> bool, w: World, steps: seq<Step>, n: nat)
    requires !isId("") && Inv(isId, w) && LastsOwn(w) && n <= |steps|
    ensures LastsOwn(RunTo(isId, w, steps, n))
  {
    if n > 0 {
      RunKeepsLasts(isId, w, steps, n - 1);
      RunKeeps(isId, w, steps, n - 1);
      StepKeepsLasts(isId, RunTo(isId, w, steps, n - 1), steps[n - 1]);
    }
  }

  /** The step stores a reply in session s. */
  predicate Commits(w: World, step: Step, s: string) {
    && step.Work? && step.c < |w.conns| && step.i < |w.conns[step.c].turns| && w.conns[step.c].sessionID == s
    && w.conns[step.c].turns[step.i].phase.Storing? && !Fails(w.conns[step.c], step.i, w.shared, step.fault)
  }

  /** A step that stores a reply in session s does so while nothing has been appended
      since the message it answers, or the limit leaves the reply alone. */
  predicate Facing(w: World, step: Step, s: string) {
    Commits(w, step, s) ==>
      w.shared.store.limit == 1 || Faces(w.conns[step.c].turns[step.i], w.shared.store, s)
  }

  /** A step keeps every reply next to its message exactly when it is so. */
  lemma StepKeepsTranscriptExactly(isId: string -> bool, w: World, step: Step, s: string)
    requires !isId("") && Inv(isId, w) && LastsOwn(w) && Transcript(w.shared.store, s)
    ensures Transcript(Apply(isId, w, step).shared.store, s) <==> Facing(w, step, s)
  {
    match step
    case Proceed(c, newId, fault) =>
      if c < |w.conns| {
        ReaderKeepsTranscript(isId, w.conns[c], c, w.shared, newId, fault, s);
      }
    case Work(c, i, fault, text, context) =>
      if c < |w.conns| && i < |w.conns[c].turns| {
        if Commits(w, step, s) {
          CommitKeepsTranscriptExactly(isId, w, step, s);
        }
      }
    case _ =>
  }

  lemma ReaderKeepsTranscript(isId: string -> bool, conn: Conn, c: nat, sh: Shared, newId: string, fault: Fault,
        s: string)
    requires ConnOk(isId, conn, c, sh) && Transcript(sh.store, s)
    ensures Transcript(ReaderStep(conn, c, sh, newId, fault).1.store, s)
  {
    if conn.reader.Accepting? && conn.sessionID == s && Live(sh.store, s, sh.now) {
      AdjacentGrowsExactly(sh.store.sessions[s].messages, Stamped(conn.reader.msg, sh.now), sh.store.limit);
    }
  }

  lemma CommitKeepsTranscriptExactly(isId: string -> bool, w: World, step: Step, s: string)
    requires Inv(isId, w) && LastsOwn(w) && Transcript(w.shared.store, s) && Commits(w, step, s)
    ensures Transcript(Apply(isId, w, step).shared.store, s) <==> Facing(w, step, s)
  {
    var conn, sh := w.conns[step.c], w.shared;
    var turn := conn.turns[step.i];
    assert Owned(turn, conn, step.c, sh) && ConnLast(conn, sh.store);
    assert LastIsOwn(turn, sh.store, s);
    AdjacentGrowsExactly(sh.store.sessions[s].messages, Stamped(turn.phase.reply, sh.now), sh.store.limit);
  }

  /** The transcript of s is adjacent in the first state of the run and after each of n steps. */
  predicate TranscriptTo(isId: string -> bool, w: World, steps: seq<Step>, n: nat, s: string)
    requires n <= |steps|
  {
    (n > 0 ==> TranscriptTo(isId, w, steps, n - 1, s)) && Transcript(RunTo(isId, w, steps, n).shared.store, s)
  }

  /** Each of the first n steps is facing. */
  predicate FacingTo(isId: string -> bool, w: World, steps: seq<Step>, n: nat, s: string)
    requires n <= |steps|
  {
    n > 0 ==> FacingTo(isId, w, steps, n - 1, s) && Facing(RunTo(isId, w, steps, n - 1), steps[n - 1], s)
  }

  lemma {:induction false} TranscriptHoldsExactly(isId: string -> bool, w: World, steps: seq<Step>, n: nat, s: string)
    requires !isId("") && Inv(isId, w) && LastsOwn(w) && Transcript(w.shared.store, s) && n <= |steps|
    ensures TranscriptTo(isId, w, steps, n, s) <==> FacingTo(isId, w, steps, n, s)
  {
    if n > 0 {
      TranscriptHoldsExactly(isId, w, steps, n - 1, s);
      RunKeeps(isId, w, steps, n - 1);
      RunKeepsLasts(isId, w, steps, n - 1);
      if TranscriptTo(isId, w, steps, n - 1, s) {
        StepKeepsTranscriptExactly(isId, RunTo(isId, w, steps, n - 1), steps[n - 1], s);
      }
    }
  }

  /** Through a whole run, on any number of connections, every reply in a session
      directly follows its message exactly when each was stored while nothing had been
      appended to the session since that message. */
  lemma RepliesFollowExactly(isId: string -> bool, ttl: int, limit: int, now: int, steps: seq<Step>, s: string)
    requires !isId("")
    ensures TranscriptTo(isId, Initial(ttl, limit, now), steps, |steps|, s)
       <==> FacingTo(isId, Initial(ttl, limit, now), steps, |steps|, s)
  {
    TranscriptHoldsExactly(isId, Initial(ttl, limit, now), steps, |steps|, s);
  }

  // ----- One message in hand at a time -----

  /** At most one connection on s has a message in hand. Others may be idle on it, or closed. */
  predicate Alone(w: World, s: string) {
    forall c, d | 0 <= c < d < |w.conns| :: !(Engaged(w.conns[c], s) && Engaged(w.conns[d], s))
  }

  predicate Engaged(conn: Conn, s: string) {
    conn.sessionID == s && conn.turnActive
  }

  predicate ConnFaces(conn: Conn, store: Store, s: string) {
    conn.sessionID == s ==>
      && (conn.reader.Launching? ==> Faces(conn.reader.turn, store, s))
      && forall i | 0 <= i < |conn.turns| && !conn.turns[i].phase.Done? :: Faces(conn.turns[i], store, s)
  }

  /** Each pending turn on s was given exactly the lines before its message. */
  ghost predicate AllFace(w: World, s: string) {
    forall c | 0 <= c < |w.conns| :: ConnFaces(w.conns[c], w.shared.store, s)
  }

  lemma UntouchedFaces(isId: string -> bool, conn: Conn, c: nat, a: Shared, b: Shared, s: string)
    requires ConnOk(isId, conn, c, a) && Untouched(a, b, s) && ConnFaces(conn, a.store, s)
    ensures ConnFaces(conn, b.store, s)
  {
  }

  lemma IdleFaces(isId: string -> bool, conn: Conn, c: nat, sh: Shared, store: Store, s: string)
    requires ConnOk(isId, conn, c, sh) && !Engaged(conn, s)
    ensures ConnFaces(conn, store, s)
  {
  }

  /** A connection without a message in hand leaves the messages alone. */
  lemma IdleStepUntouched(isId: string -> bool, w: World, step: Step, s: string)
    requires Inv(isId, w)
    requires (step.Proceed? || step.Work?) && step.c < |w.conns| ==> !Engaged(w.conns[step.c], s)
    ensures Untouched(w.shared, Apply(isId, w, step).shared, s)
  {
  }

  lemma OwnReaderFaces(isId: string -> bool, conn: Conn, c: nat, sh: Shared, newId: string, fault: Fault, s: string)
    requires ConnOk(isId, conn, c, sh) && ConnFaces(conn, sh.store, s)
    ensures var r := ReaderStep(conn, c, sh, newId, fault);
            ConnFaces(r.0, r.1.store, s)
  {
    if conn.reader.Accepting? {
      AppendLast(isId, conn, c, sh, fault);
    }
  }

  lemma OwnTurnFaces(isId: string -> bool, conn: Conn, c: nat, i: nat, sh: Shared, fault: Fault, text: string,
        context: ProviderContext, s: string)
    requires ConnOk(isId, conn, c, sh) && ConnFaces(conn, sh.store, s) && i < |conn.turns|
    ensures var r := TurnStep(conn, i, sh, fault, text, context);
            ConnFaces(r.0, r.1.store, s)
  {
    assert |conn.turns| == 1;
  }

  lemma StepAllFace(isId: string -> bool, w: World, step: Step, s: string)
    requires Inv(isId, w) && Alone(w, s) && AllFace(w, s)
    ensures AllFace(Apply(isId, w, step), s)
  {
    var after := Apply(isId, w, step);
    forall d | 0 <= d < |after.conns|
      ensures ConnFaces(after.conns[d], after.shared.store, s)
    {
      if d < |w.conns| {
        if step.Proceed? && step.c == d {
          OwnReaderFaces(isId, w.conns[d], d, w.shared, step.newId, step.fault, s);
        } else if step.Work? && step.c == d && step.i < |w.conns[d].turns| {
          OwnTurnFaces(isId, w.conns[d], d, step.i, w.shared, step.fault, step.text, step.context, s);
        } else {
          BystanderFaces(isId, w, step, s, d);
        }
      }
    }
  }

  lemma BystanderFaces(isId: string -> bool, w: World, step: Step, s: string, d: nat)
    requires Inv(isId, w) && Alone(w, s) && AllFace(w, s) && d < |w.conns|
    requires !(step.Proceed? && step.c == d) && !(step.Work? && step.c == d && step.i < |w.conns[d].turns|)
    ensures ConnFaces(Apply(isId, w, step).conns[d], Apply(isId, w, step).shared.store, s)
  {
    var after := Apply(isId, w, step);
    assert ConnFaces(w.conns[d], w.shared.store, s);
    if !Engaged(w.conns[d], s) {
      IdleFaces(isId, w.conns[d], d, w.shared, after.shared.store, s);
    } else if (step.Proceed? || step.Work?) && step.c < |w.conns| && step.c != d {
      assert !Engaged(w.conns[step.c], s);
      IdleStepUntouched(isId, w, step, s);
      UntouchedFaces(isId, w.conns[d], d, w.shared, after.shared, s);
    } else if after != w {
      IdleStepUntouched(isId, w, step, s);
      UntouchedFaces(isId, w.conns[d], d, w.shared, after.shared, s);
    }
  }

  lemma AllFaceIsFacing(w: World, step: Step, s: string)
    requires AllFace(w, s)
    ensures Facing(w, step, s)
  {
    if Commits(w, step, s) {
      assert ConnFaces(w.conns[step.c], w.shared.store, s);
    }
  }

  predicate AloneTo(isId: string -> bool, w: World, steps: seq<Step>, n: nat, s: string)
    requires n <= |steps|
  {
    forall i | 0 <= i < n :: Alone(RunTo(isId, w, steps, i), s)
  }

  lemma {:induction false} AloneRunFaces(isId: string -> bool, w: World, steps: seq<Step>, n: nat, s: string)
    requires !isId("") && Inv(isId, w) && AllFace(w, s) && n <= |steps| && AloneTo(isId, w, steps, n, s)
    ensures AllFace(RunTo(isId, w, steps, n), s)
  {
    if n > 0 {
      AloneRunFaces(isId, w, steps, n - 1, s);
      RunKeeps(isId, w, steps, n - 1);
      StepAllFace(isId, RunTo(isId, w, steps, n - 1), steps[n - 1], s);
    }
  }

  lemma {:induction false} AloneRunIsFacing(isId: string -> bool, w: World, steps: seq<Step>, n: nat, s: string)
    requires !isId("") && Inv(isId, w) && AllFace(w, s) && n <= |steps| && AloneTo(isId, w, steps, n, s)
    ensures FacingTo(isId, w, steps, n, s)
  {
    if n > 0 {
      AloneRunIsFacing(isId, w, steps, n - 1, s);
      AloneRunFaces(isId, w, steps, n - 1, s);
      AllFaceIsFacing(RunTo(isId, w, steps, n - 1), steps[n - 1], s);
    }
  }

  /** While one connection at a time has a message in hand, reloads and second tabs
      included, every reply directly follows its message, and each pending turn was
      given exactly the lines before it. */
  lemma ReplyFollowsItsMessage(isId: string -> bool, ttl: int, limit: int, now: int, steps: seq<Step>, s: string)
    requires !isId("")
    requires AloneTo(isId, Initial(ttl, limit, now), steps, |steps|, s)
    ensures AllFace(RunTo(isId, Initial(ttl, limit, now), steps, |steps|), s)
    ensures TranscriptTo(isId, Initial(ttl, limit, now), steps, |steps|, s)
  {
    AloneRunFaces(isId, Initial(ttl, limit, now), steps, |steps|, s);
    AloneRunIsFacing(isId, Initial(ttl, limit, now), steps, |steps|, s);
    RepliesFollowExactly(isId, ttl, limit, now, steps, s);
  }

  // ----- Two connections on a session -----

  const TWO_TABS: seq<Step> := [
    Connect("cmdr", "", "s"),
    Connect("cmdr", "s", ""),
    Read(0, UserMessage("a", "first", "")),
    Proceed(0, "", Clean),
    Read(1, UserMessage("b", "second", "")),
    Proceed(1, "", Clean),
    Proceed(0, "", Clean),
    Work(0, 0, Clean, "", USABLE),
    Work(0, 0, Clean, "answer", USABLE),
    Work(0, 0, Clean, "", USABLE)]

  lemma BothConnected(isId: string -> bool)
    ensures var w := RunTo(isId, Initial(60, 0, 1), TWO_TABS, 2);
            && w.conns == [Conn("cmdr", "s", false, Waiting, []), Conn("cmdr", "s", false, Waiting, [])]
            && Stored(w.shared, [], {}) && w.shared.accepted == []
  {
    RunTwo(isId, Initial(60, 0, 1), TWO_TABS, 0);
  }

  lemma FirstTabAccepted(isId: string -> bool)
    requires isId("a")
    ensures var w := RunTo(isId, Initial(60, 0, 1), TWO_TABS, 4);
            && w.conns == [Conn("cmdr", "s", true, Launching(Turn(0, "a", [], Loading)), []),
                           Conn("cmdr", "s", false, Waiting, [])]
            && Stored(w.shared, [FIRST], {"a"})
  {
    BothConnected(isId);
    RunTwo(isId, Initial(60, 0, 1), TWO_TABS, 2);
  }

  /** Both messages are stored before the first turn starts. */
  lemma TwoTabsAccepted(isId: string -> bool)
    requires isId("a") && isId("b")
    ensures var w := RunTo(isId, Initial(60, 0, 1), TWO_TABS, 6);
            && |w.conns| == 2
            && w.conns[0] == Conn("cmdr", "s", true, Launching(Turn(0, "a", [], Loading)), [])
            && Stored(w.shared, [FIRST, SECOND], {"a", "b"})
  {
    FirstTabAccepted(isId);
    RunTwo(isId, Initial(60, 0, 1), TWO_TABS, 4);
  }

  lemma FirstTabRunning(isId: string -> bool)
    requires isId("a") && isId("b")
    ensures var w := RunTo(isId, Initial(60, 0, 1), TWO_TABS, 8);
            && |w.conns| == 2 && w.conns[0].sessionID == "s" && |w.conns[0].turns| == 1
            && w.conns[0].turns[0].clientId == "a" && w.conns[0].turns[0].phase.Running?
            && Stored(w.shared, [FIRST, SECOND], {"a", "b"})
  {
    TwoTabsAccepted(isId);
    RunTwo(isId, Initial(60, 0, 1), TWO_TABS, 6);
  }

  /** With two, it does not: the reply to the first message can follow the second. */
  lemma TwoConnectionsInterleave(isId: string -> bool)
    requires isId("a") && isId("b")
    ensures !Transcript(RunTo(isId, Initial(60, 0, 1), TWO_TABS, |TWO_TABS|).shared.store, "s")
  {
    FirstTabRunning(isId);
    RunTwo(isId, Initial(60, 0, 1), TWO_TABS, 8);
    var messages := RunTo(isId, Initial(60, 0, 1), TWO_TABS, 10).shared.store.sessions["s"].messages;
    assert messages[2].role == "assistant" && messages[2].inReplyTo == "a" && messages[1].clientId == "b";
    assert !AdjacentAt(messages, 0, 2);
  }
}
