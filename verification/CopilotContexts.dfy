/** Which provider context a copilot turn gets: internal/httpapi/copilot_chat.go over
    internal/llm/session_store.go. */
module CopilotContexts {
  import opened Basics
  import opened ContextCodec
  import opened ChatStore
  import opened CopilotTurn

  // ----- The last context committed -----

  predicate CommitsFor(r: Reply, s: string, p: string) {
    r.sessionID == s && r.context.provider == p
  }

  /** The context the last of the first n replies to session s with provider p committed. */
  function Committed(replies: seq<Reply>, n: nat, s: string, p: string): Option<ProviderContext>
    requires n <= |replies|
  {
    if n == 0 then None
    else if CommitsFor(replies[n - 1], s, p) then Some(replies[n - 1].context)
    else Committed(replies, n - 1, s, p)
  }

  /** It is that of a reply behind which no other reply commits for them, and there is
      none exactly when no reply does. */
  lemma {:induction false} CommittedIsLast(replies: seq<Reply>, n: nat, s: string, p: string)
    requires n <= |replies|
    ensures Committed(replies, n, s, p).None? <==> forall r | 0 <= r < n :: !CommitsFor(replies[r], s, p)
    ensures Committed(replies, n, s, p).Some? ==>
              exists r | 0 <= r < n ::
                && CommitsFor(replies[r], s, p) && Committed(replies, n, s, p) == Some(replies[r].context)
                && forall q | r < q < n :: !CommitsFor(replies[q], s, p)
  {
    if n > 0 && !CommitsFor(replies[n - 1], s, p) {
      CommittedIsLast(replies, n - 1, s, p);
    }
  }

  lemma {:induction false} CommittedBefore(replies: seq<Reply>, r: Reply, n: nat, s: string, p: string)
    requires n <= |replies|
    ensures Committed(replies + [r], n, s, p) == Committed(replies, n, s, p)
  {
    if n > 0 {
      CommittedBefore(replies, r, n - 1, s, p);
    }
  }

  // ----- Invariant -----

  function Held(store: Store, s: string, p: string): Option<ProviderContext> {
    if s in store.contexts && p in store.contexts[s] then Some(store.contexts[s][p]) else None
  }

  /** The store holds for each of its sessions what was last committed to it. */
  ghost predicate HoldsCommitted(sh: Shared) {
    && sh.store.contexts.Keys <= sh.created
    && forall s: string, p: string | s in sh.store.sessions ::
         Held(sh.store, s, p) == Committed(sh.replies, |sh.replies|, s, p)
  }

  /** The load gave what was last committed to its session before it, and nothing
      when nothing was or the session was not live. */
  predicate LoadTold(l: Load, replies: seq<Reply>) {
    && l.before <= |replies|
    && var last := Committed(replies, l.before, l.sessionID, "anthropic");
       l.context == if l.live && last.Some? then last.value else NO_CONTEXT
  }

  /** The load a running turn has its context from. */
  predicate LoadedFor(l: Load, turn: Turn, sessionID: string) {
    turn.phase.Running? && l.turn == turn.index && l.sessionID == sessionID && l.context == turn.phase.context
  }

  predicate TurnsLoaded(conn: Conn, loads: seq<Load>) {
    forall i | 0 <= i < |conn.turns| && conn.turns[i].phase.Running? ::
      exists l | 0 <= l < |loads| :: LoadedFor(loads[l], conn.turns[i], conn.sessionID)
  }

  ghost predicate SharedTold(sh: Shared) {
    && HoldsCommitted(sh)
    && (forall r | 0 <= r < |sh.replies| :: sh.replies[r].context != NO_CONTEXT)
    && forall l | 0 <= l < |sh.loads| :: LoadTold(sh.loads[l], sh.replies)
  }

  ghost predicate ContextsOk(w: World) {
    && SharedTold(w.shared)
    && forall c | 0 <= c < |w.conns| :: TurnsLoaded(w.conns[c], w.shared.loads)
  }

  // ----- Steps keep it -----

  /** Sessions may go, but those that stay hold what they held. */
  ghost predicate KeepsHeld(a: Store, b: Store) {
    && b.sessions.Keys <= a.sessions.Keys && b.contexts.Keys <= a.contexts.Keys
    && forall s: string, p: string | s in b.sessions :: Held(b, s, p) == Held(a, s, p)
  }

  lemma StoreCallsKeepHeld(st: Store, id: string, msg: ChatMessage, context: ProviderContext, now: int)
    ensures KeepsHeld(st, Fetched(st, id, now).0)
    ensures KeepsHeld(st, Cleaned(st, now))
    ensures KeepsHeld(st, AppendOnce(st, id, msg, now).0)
    ensures !Commit(st, id, msg, context, now).1 ==> KeepsHeld(st, Commit(st, id, msg, context, now).0)
  {
  }

  lemma UncreatedHasNothing(sh: Shared, s: string, p: string)
    requires SharedOk(sh) && s !in sh.created
    ensures Committed(sh.replies, |sh.replies|, s, p) == None
  {
    forall r | 0 <= r < |sh.replies|
      ensures !CommitsFor(sh.replies[r], s, p)
    {
      assert ReplyOk(sh.replies[r], sh.accepted);
    }
    CommittedIsLast(sh.replies, |sh.replies|, s, p);
  }

  lemma CreationHolds(sh: Shared, newId: string, userID: string)
    requires SharedOk(sh) && HoldsCommitted(sh) && newId !in sh.created
    ensures HoldsCommitted(sh.(store := Created(sh.store, newId, userID, sh.now), created := sh.created + {newId}))
  {
    forall p: string
      ensures Committed(sh.replies, |sh.replies|, newId, p) == None
    {
      UncreatedHasNothing(sh, newId, p);
    }
  }

  lemma CommitHolds(sh: Shared, r: Reply)
    requires HoldsCommitted(sh) && r.sessionID in sh.created
    requires Commit(sh.store, r.sessionID, r.message, r.context, sh.now).1
    ensures HoldsCommitted(sh.(store := Commit(sh.store, r.sessionID, r.message, r.context, sh.now).0,
                               replies := sh.replies + [r]))
  {
    var store := Commit(sh.store, r.sessionID, r.message, r.context, sh.now).0;
    forall s: string, p: string | s in store.sessions
      ensures Held(store, s, p) == Committed(sh.replies + [r], |sh.replies| + 1, s, p)
    {
      CommittedBefore(sh.replies, r, |sh.replies|, s, p);
      assert Held(sh.store, s, p) == Committed(sh.replies, |sh.replies|, s, p);
    }
  }

  lemma ReplyKeepsLoads(sh: Shared, r: Reply)
    requires forall l | 0 <= l < |sh.loads| :: LoadTold(sh.loads[l], sh.replies)
    ensures forall l | 0 <= l < |sh.loads| :: LoadTold(sh.loads[l], sh.replies + [r])
  {
    forall l | 0 <= l < |sh.loads|
      ensures LoadTold(sh.loads[l], sh.replies + [r])
    {
      CommittedBefore(sh.replies, r, sh.loads[l].before, sh.loads[l].sessionID, "anthropic");
    }
  }

  lemma ReaderTold(conn: Conn, c: nat, sh: Shared, newId: string, fault: Fault)
    requires SharedOk(sh) && SharedTold(sh)
    ensures var r := ReaderStep(conn, c, sh, newId, fault);
            SharedTold(r.1) && r.1.loads == sh.loads
  {
    match conn.reader
    case Accepting(msg) => StoreCallsKeepHeld(sh.store, conn.sessionID, msg, NO_CONTEXT, sh.now);
    case Clearing =>
      if newId !in sh.created {
        CreationHolds(sh, newId, conn.userID);
      }
    case Fetching(target) =>
      StoreCallsKeepHeld(sh.store, target, ChatMessage("", "", 0, "", ""), NO_CONTEXT, sh.now);
    case _ =>
  }

  lemma TurnTold(conn: Conn, i: nat, sh: Shared, fault: Fault, text: string, context: ProviderContext)
    requires SharedTold(sh) && conn.sessionID in sh.created && i < |conn.turns|
    ensures var r := TurnStep(conn, i, sh, fault, text, context);
            SharedTold(r.1) && sh.loads <= r.1.loads
  {
    var turn, r := conn.turns[i], TurnStep(conn, i, sh, fault, text, context);
    match turn.phase
    case Loading =>
      var s := conn.sessionID;
      if s in sh.store.sessions {
        assert Held(sh.store, s, "anthropic") == Committed(sh.replies, |sh.replies|, s, "anthropic");
      }
    case Storing(reply, newContext) =>
      if !fault.Lost? {
        StoreCallsKeepHeld(sh.store, conn.sessionID, reply, newContext, sh.now);
        if Commit(sh.store, conn.sessionID, reply, newContext, sh.now).1 {
          var told := Reply(turn.index, conn.sessionID, reply, newContext);
          CommitHolds(sh, told);
          ReplyKeepsLoads(sh, told);
        }
      }
    case _ =>
  }

  lemma TurnLoads(conn: Conn, i: nat, sh: Shared, fault: Fault, text: string, context: ProviderContext)
    requires TurnsLoaded(conn, sh.loads) && i < |conn.turns|
    ensures var r := TurnStep(conn, i, sh, fault, text, context);
            TurnsLoaded(r.0, r.1.loads)
  {
    var r := TurnStep(conn, i, sh, fault, text, context);
    forall j | 0 <= j < |r.0.turns| && r.0.turns[j].phase.Running?
      ensures exists l | 0 <= l < |r.1.loads| :: LoadedFor(r.1.loads[l], r.0.turns[j], r.0.sessionID)
    {
      if j == i && conn.turns[i].phase.Loading? {
        assert LoadedFor(r.1.loads[|sh.loads|], r.0.turns[j], r.0.sessionID);
      } else {
        var k := if conn.turns[i].phase.Done? && i <= j then j + 1 else j;
        assert r.0.turns[j] == conn.turns[k];
        var l :| 0 <= l < |sh.loads| && LoadedFor(sh.loads[l], conn.turns[k], conn.sessionID);
        assert r.1.loads[l] == sh.loads[l];
      }
    }
  }

  lemma LoadsGrow(conn: Conn, a: seq<Load>, b: seq<Load>)
    requires TurnsLoaded(conn, a) && a <= b
    ensures TurnsLoaded(conn, b)
  {
    forall i | 0 <= i < |conn.turns| && conn.turns[i].phase.Running?
      ensures exists l | 0 <= l < |b| :: LoadedFor(b[l], conn.turns[i], conn.sessionID)
    {
      var l :| 0 <= l < |a| && LoadedFor(a[l], conn.turns[i], conn.sessionID);
      assert b[l] == a[l];
    }
  }

  lemma ReaderLoads(isId: string -> bool, conn: Conn, c: nat, sh: Shared, newId: string, fault: Fault)
    requires ConnOk(isId, conn, c, sh) && TurnsLoaded(conn, sh.loads)
    ensures TurnsLoaded(ReaderStep(conn, c, sh, newId, fault).0, sh.loads)
  {
    var r := ReaderStep(conn, c, sh, newId, fault);
    forall j | 0 <= j < |r.0.turns| && r.0.turns[j].phase.Running?
      ensures exists l | 0 <= l < |sh.loads| :: LoadedFor(sh.loads[l], r.0.turns[j], r.0.sessionID)
    {
      assert r.0.turns[j] == conn.turns[j] && r.0.sessionID == conn.sessionID;
    }
  }

  lemma StepKeepsContexts(isId: string -> bool, w: World, step: Step)
    requires Inv(isId, w) && ContextsOk(w)
    ensures ContextsOk(Apply(isId, w, step))
  {
    match step
    case Connect(userID, active, newId) => ConnectKeepsContexts(isId, w, userID, active, newId);
    case Read(c, frame) => ReadKeepsContexts(isId, w, c, frame);
    case Proceed(c, newId, fault) =>
      if c < |w.conns| {
        ReaderTold(w.conns[c], c, w.shared, newId, fault);
        ReaderLoads(isId, w.conns[c], c, w.shared, newId, fault);
      }
    case Work(c, i, fault, text, context) =>
      if c < |w.conns| && i < |w.conns[c].turns| {
        WorkKeepsContexts(isId, w, c, i, fault, text, context);
      }
    case Sweep => StoreCallsKeepHeld(w.shared.store, "", ChatMessage("", "", 0, "", ""), NO_CONTEXT, w.shared.now);
    case Tick(_) =>
  }

  lemma ConnectKeepsContexts(isId: string -> bool, w: World, userID: string, active: string, newId: string)
    requires Inv(isId, w) && ContextsOk(w)
    ensures ContextsOk(Apply(isId, w, Connect(userID, active, newId)))
  {
    if newId !in w.shared.created {
      CreationHolds(w.shared, newId, userID);
    }
  }

  lemma ReadKeepsContexts(isId: string -> bool, w: World, c: nat, frame: Frame)
    requires ContextsOk(w)
    ensures ContextsOk(Apply(isId, w, Read(c, frame)))
  {
    if c < |w.conns| {
      var s := w.conns[c].sessionID;
      StoreCallsKeepHeld(w.shared.store, s, ChatMessage("", "", 0, "", ""), NO_CONTEXT, w.shared.now);
    }
  }

  lemma WorkKeepsContexts(isId: string -> bool, w: World, c: nat, i: nat, fault: Fault, text: string,
        context: ProviderContext)
    requires Inv(isId, w) && ContextsOk(w) && c < |w.conns| && i < |w.conns[c].turns|
    ensures ContextsOk(Apply(isId, w, Work(c, i, fault, text, context)))
  {
    var after := Apply(isId, w, Work(c, i, fault, text, context));
    TurnTold(w.conns[c], i, w.shared, fault, text, context);
    TurnLoads(w.conns[c], i, w.shared, fault, text, context);
    forall d | 0 <= d < |w.conns| && d != c
      ensures TurnsLoaded(after.conns[d], after.shared.loads)
    {
      LoadsGrow(w.conns[d], w.shared.loads, after.shared.loads);
    }
  }

  lemma {:induction false} RunKeepsContexts(isId: string -> bool, w: World, steps: seq<Step>, n: nat)
    requires !isId("") && Inv(isId, w) && ContextsOk(w) && n <= |steps|
    ensures ContextsOk(RunTo(isId, w, steps, n))
  {
    if n > 0 {
      RunKeepsContexts(isId, w, steps, n - 1);
      RunKeeps(isId, w, steps, n - 1);
      StepKeepsContexts(isId, RunTo(isId, w, steps, n - 1), steps[n - 1]);
    }
  }

  // ----- What holds in every run -----

  /** The load gave the context of the last reply before it that committed one to its
      session, and nothing exactly when there is none or the session was not live. */
  predicate GaveLast(l: Load, replies: seq<Reply>) {
    var s := l.sessionID;
    && l.before <= |replies|
    && (l.context == NO_CONTEXT
        <==> !l.live || forall r | 0 <= r < l.before :: !CommitsFor(replies[r], s, "anthropic"))
    && (l.context != NO_CONTEXT ==>
          exists r | 0 <= r < l.before ::
            && CommitsFor(replies[r], s, "anthropic") && l.context == replies[r].context
            && forall q | r < q < l.before :: !CommitsFor(replies[q], s, "anthropic"))
  }

  lemma ToldGaveLast(l: Load, sh: Shared)
    requires SharedTold(sh) && LoadTold(l, sh.replies)
    ensures GaveLast(l, sh.replies)
  {
    CommittedIsLast(sh.replies, l.before, l.sessionID, "anthropic");
  }

  /** Under every interleaving, a running turn has the context of a load made for it in
      its session, and every load gave the context last committed there before it. */
  lemma TurnsGetTheLastContext(isId: string -> bool, ttl: int, limit: int, now: int, steps: seq<Step>)
    requires !isId("")
    ensures var w := RunTo(isId, Initial(ttl, limit, now), steps, |steps|);
            && (forall l | 0 <= l < |w.shared.loads| :: GaveLast(w.shared.loads[l], w.shared.replies))
            && forall c | 0 <= c < |w.conns| :: TurnsLoaded(w.conns[c], w.shared.loads)
  {
    var start := Initial(ttl, limit, now);
    RunKeepsContexts(isId, start, steps, |steps|);
    var w := RunTo(isId, start, steps, |steps|);
    forall l | 0 <= l < |w.shared.loads|
      ensures GaveLast(w.shared.loads[l], w.shared.replies)
    {
      ToldGaveLast(w.shared.loads[l], w.shared);
    }
  }

  /** A load looks at the store as it is: it counts the replies made so far and asks
      whether the session is in time. */
  lemma LoadsAreHonest(conn: Conn, i: nat, sh: Shared, fault: Fault, text: string, context: ProviderContext)
    requires i < |conn.turns| && conn.turns[i].phase.Loading?
    ensures var (after, next) := TurnStep(conn, i, sh, fault, text, context);
            && (fault.Clean? <==> next != sh) && (fault.Clean? <==> after.turns[i].phase.Running?)
            && (fault.Clean? ==>
                  && |next.loads| == |sh.loads| + 1 && next.loads[..|sh.loads|] == sh.loads
                  && var l := next.loads[|sh.loads|];
                     && l.turn == conn.turns[i].index && l.sessionID == conn.sessionID && l.before == |sh.replies|
                     && (l.live <==> AliveAt(sh.store, conn.sessionID, sh.now))
                     && next == sh.(loads := next.loads))
  {
  }

  // ----- What a step does -----

  predicate OnlyTurnMoves(a: Conn, b: Conn, i: nat)
    requires i < |a.turns|
  {
    && b.userID == a.userID && b.sessionID == a.sessionID && b.turnActive == a.turnActive && b.reader == a.reader
    && |b.turns| == |a.turns|
    && (forall j | 0 <= j < |a.turns| && j != i :: b.turns[j] == a.turns[j])
    && b.turns[i].index == a.turns[i].index && b.turns[i].clientId == a.turns[i].clientId
    && b.turns[i].history == a.turns[i].history
  }

  /** A running turn that does not fail goes on to store its text as the answer to its
      message, with the new context; one that fails is over with nothing stored. */
  lemma RunsExactly(conn: Conn, i: nat, sh: Shared, fault: Fault, text: string, context: ProviderContext)
    requires i < |conn.turns| && conn.turns[i].phase.Running?
    ensures var (after, next) := TurnStep(conn, i, sh, fault, text, context);
            && next == sh && OnlyTurnMoves(conn, after, i)
            && (if fault.Clean? then
                  && after.turns[i].phase.Storing? && after.turns[i].phase.newContext == context
                  && var reply := after.turns[i].phase.reply;
                     && reply.role == "assistant" && reply.content == text && reply.createdAt == sh.now
                     && reply.clientId == "" && reply.inReplyTo == conn.turns[i].clientId
                else after.turns[i].phase.Done?)
  {
  }

  /** Storing ends a turn. Unless the call is lost it commits the reply with its context,
      which counts as a reply exactly when the session is live and the context is named
      and versioned, even where an error is reported. */
  lemma StoresExactly(conn: Conn, i: nat, sh: Shared, fault: Fault, text: string, context: ProviderContext)
    requires i < |conn.turns| && conn.turns[i].phase.Storing?
    ensures var (after, next) := TurnStep(conn, i, sh, fault, text, context);
            var phase, s := conn.turns[i].phase, conn.sessionID;
            && OnlyTurnMoves(conn, after, i) && after.turns[i].phase.Done?
            && next.now == sh.now && next.created == sh.created && next.accepted == sh.accepted
            && next.loads == sh.loads
            && next.store == (if fault.Lost? then sh.store
                              else Commit(sh.store, s, phase.reply, phase.newContext, sh.now).0)
            && (if !fault.Lost? && AliveAt(sh.store, s, sh.now)
                   && phase.newContext.provider != "" && phase.newContext.version > 0 then
                  && |next.replies| == |sh.replies| + 1 && next.replies[..|sh.replies|] == sh.replies
                  && var r := next.replies[|sh.replies|];
                     && r.turn == conn.turns[i].index && r.sessionID == s && r.message == phase.reply
                     && r.context == phase.newContext
                else next.replies == sh.replies)
  {
  }

  /** A finished turn clears the flag and goes. */
  lemma EndsExactly(conn: Conn, i: nat, sh: Shared, fault: Fault, text: string, context: ProviderContext)
    requires i < |conn.turns| && conn.turns[i].phase.Done?
    ensures var (after, next) := TurnStep(conn, i, sh, fault, text, context);
            && next == sh && !after.turnActive && |after.turns| == |conn.turns| - 1
            && (forall j | 0 <= j < |after.turns| :: after.turns[j] == conn.turns[if j < i then j else j + 1])
            && after.userID == conn.userID && after.sessionID == conn.sessionID && after.reader == conn.reader
  {
  }

  /** A message is taken up exactly when it has text or an image and an id, and no turn
      is active; an image alone is stored under a fixed text. */
  lemma MessagesAreReadExactly(isId: string -> bool, conn: Conn, sh: Shared, clientId: string, content: string,
        image: string)
    ensures var (after, next) := ReadFrame(isId, conn, sh, UserMessage(clientId, content, image));
            && next == sh
            && (if (content != "" || image != "") && isId(clientId) && !conn.turnActive then
                  && after.turnActive && after.reader.Accepting?
                  && after == conn.(turnActive := true, reader := after.reader)
                  && var m := after.reader.msg;
                     && m.role == "user" && m.clientId == clientId && m.createdAt == sh.now && m.inReplyTo == ""
                     && m.content == if content == "" then "[image attached]" else content
                else after == conn)
  {
  }

  /** A new chat and a switch wait for no turn to be active. */
  lemma SwitchesAreReadExactly(isId: string -> bool, conn: Conn, sh: Shared, target: string)
    ensures ReadFrame(isId, conn, sh, NewChat)
         == (if conn.turnActive then conn else conn.(reader := Clearing), sh)
    ensures ReadFrame(isId, conn, sh, SwitchSession(target))
         == (if conn.turnActive || target == "" then conn else conn.(reader := Selecting(target)), sh)
    ensures ReadFrame(isId, conn, sh, ReadError) == (conn.(reader := Closed), sh)
    ensures var (after, next) := ReadFrame(isId, conn, sh, SyncSession);
            && after == conn && next == sh.(store := next.store)
            && (if AliveAt(sh.store, conn.sessionID, sh.now) || conn.sessionID !in sh.store.sessions
                then next.store == sh.store else Gone(next.store, conn.sessionID))
  {
  }

  /** The append starts a turn exactly when the message was added and no error was
      reported; the turn is given the lines before its message. Any other end gives the
      flag back. */
  lemma AppendsExactly(conn: Conn, c: nat, sh: Shared, newId: string, fault: Fault)
    requires conn.reader.Accepting?
    ensures var (after, next) := ReaderStep(conn, c, sh, newId, fault);
            var (store, receipt) := AppendOnce(sh.store, conn.sessionID, conn.reader.msg, sh.now);
            && after == conn.(reader := after.reader)
            && next == sh.(store := if fault.Lost? then sh.store else store, accepted := next.accepted)
            && (if fault.Clean? && receipt.Added? then
                  && after.reader.Launching?
                  && next.accepted == sh.accepted + [Accepted(c, conn.sessionID, conn.reader.msg.clientId)]
                  && var turn, shown := after.reader.turn, receipt.messages;
                     && turn.index == |sh.accepted| && turn.clientId == conn.reader.msg.clientId
                     && turn.phase.Loading? && (shown != [] ==> turn.history == shown[..|shown| - 1])
                else after.reader.Releasing? && next.accepted == sh.accepted)
  {
  }

  /** The reader's other steps. */
  lemma ReaderMovesExactly(conn: Conn, c: nat, sh: Shared, newId: string, fault: Fault)
    requires !conn.reader.Accepting?
    ensures var (after, next) := ReaderStep(conn, c, sh, newId, fault);
            match conn.reader
            case Releasing => after == conn.(turnActive := false, reader := Waiting) && next == sh
            case Launching(turn) => after == conn.(turns := conn.turns + [turn], reader := Waiting) && next == sh
            case Clearing =>
              if newId in sh.created then after == conn && next == sh else
              && after == conn.(reader := Assigning(newId))
              && next == sh.(store := CreatedWith(sh.store, newId, conn.userID, [], sh.now),
                             created := sh.created + {newId})
            case Selecting(target) =>
              && next == sh
              && var granted := AliveAt(sh.store, target, sh.now) && sh.store.sessions[target].userID == conn.userID;
                 after == conn.(reader := if granted && fault.Clean? then Fetching(target) else Waiting)
            case Fetching(target) =>
              && next == sh.(store := Fetched(sh.store, target, sh.now).0)
              && after == conn.(reader := if AliveAt(sh.store, target, sh.now) then Assigning(target) else Waiting)
            case Assigning(target) => after == conn.(sessionID := target, reader := Waiting) && next == sh
            case _ => after == conn && next == sh
  {
    CreatedWithNothing(sh.store, newId, conn.userID, sh.now);
  }

  /** A connection takes up the commander's live active session and gets a new one
      otherwise. */
  lemma ConnectsExactly(isId: string -> bool, w: World, userID: string, active: string, newId: string)
    ensures var after, sh := Apply(isId, w, Connect(userID, active, newId)), w.shared;
            if AliveAt(sh.store, active, sh.now) && sh.store.sessions[active].userID == userID then
              after.shared == sh && after.conns == w.conns + [Conn(userID, active, false, Waiting, [])]
            else if newId in sh.created then after == w else
              && after.conns == w.conns + [Conn(userID, newId, false, Waiting, [])]
              && after.shared == sh.(store := CreatedWith(sh.store, newId, userID, [], sh.now),
                                     created := sh.created + {newId})
  {
    CreatedWithNothing(w.shared.store, newId, userID, w.shared.now);
  }

  predicate OnlyConnMoves(a: World, b: World, c: nat) {
    |b.conns| == |a.conns| && forall d | 0 <= d < |a.conns| && d != c :: b.conns[d] == a.conns[d]
  }

  /** A step of a connection is its reader's or one of its turns'; the reader takes a
      frame only when it waits for one. */
  lemma StepsExactly(isId: string -> bool, w: World, step: Step)
    ensures var after := Apply(isId, w, step);
            match step
            case Read(c, frame) =>
              if c < |w.conns| && w.conns[c].reader == Waiting then
                && OnlyConnMoves(w, after, c)
                && (after.conns[c], after.shared) == ReadFrame(isId, w.conns[c], w.shared, frame)
              else after == w
            case Proceed(c, newId, fault) =>
              if c < |w.conns| then
                && OnlyConnMoves(w, after, c)
                && (after.conns[c], after.shared) == ReaderStep(w.conns[c], c, w.shared, newId, fault)
              else after == w
            case Work(c, i, fault, text, context) =>
              if c < |w.conns| && i < |w.conns[c].turns| then
                && OnlyConnMoves(w, after, c)
                && (after.conns[c], after.shared) == TurnStep(w.conns[c], i, w.shared, fault, text, context)
              else after == w
            case Sweep => after == w.(shared := w.shared.(store := Cleaned(w.shared.store, w.shared.now)))
            case Tick(d) => after == w.(shared := w.shared.(now := w.shared.now + d))
            case Connect(_, _, _) => |w.conns| <= |after.conns|
  {
  }
}
