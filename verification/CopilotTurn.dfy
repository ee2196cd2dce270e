/** The copilot websocket: any number of connections, each with a reader and the
    turns it starts, over one session store, in interleaved atomic steps:
    internal/httpapi/copilot_chat.go. */
module CopilotTurn {
  import opened Basics
  import opened ContextCodec
  import opened ChatStore

  // ----- State -----

  /** The next atomic step of a turn goroutine. */
  datatype Phase =
    | Loading
    | Running(context: ProviderContext)
    | Storing(reply: ChatMessage, newContext: ProviderContext)
    | Done

  /** A turn; `index` is its position among the accepted messages. */
  datatype Turn = Turn(index: nat, clientId: string, history: seq<ChatMessage>, phase: Phase)

  /** The next atomic step of the reader. */
  datatype Reader =
    | Waiting
    | Accepting(msg: ChatMessage)
    | Releasing
    | Launching(turn: Turn)
    | Clearing
    | Selecting(target: string)
    | Fetching(target: string)
    | Assigning(target: string)
    | Closed

  datatype Conn = Conn(userID: string, sessionID: string, turnActive: bool, reader: Reader, turns: seq<Turn>)

  datatype Accepted = Accepted(conn: nat, sessionID: string, clientId: string)

  /** A context load: how many replies there were before it, whether the session was
      live, and what it gave. */
  datatype Load = Load(turn: nat, sessionID: string, before: nat, live: bool, context: ProviderContext)

  datatype Reply = Reply(turn: nat, sessionID: string, message: ChatMessage, context: ProviderContext)

  /** The store, the clock, and the history of what was created, accepted, loaded and committed. */
  datatype Shared = Shared(
    store: Store,
    now: int,
    created: set<string>,
    accepted: seq<Accepted>,
    loads: seq<Load>,
    replies: seq<Reply>)

  datatype World = World(conns: seq<Conn>, shared: Shared)

  // ----- Steps -----

  datatype Frame =
    | UserMessage(clientId: string, content: string, image: string)
    | NewChat
    | SwitchSession(sessionID: string)
    | SyncSession
    | ReadError

  /** How a store call goes: no error, an error without effect, or an error after the effect. */
  datatype Fault = Clean | Lost | Late

  datatype Step =
    | Connect(userID: string, active: string, newId: string)
    | Read(c: nat, frame: Frame)
    | Proceed(c: nat, newId: string, fault: Fault)
    | Work(c: nat, i: nat, fault: Fault, text: string, context: ProviderContext)
    | Sweep
    | Tick(d: nat)

  /** The dispatch of one frame, up to the first call that another goroutine can see. */
  function ReadFrame(isId: string -> bool, conn: Conn, sh: Shared, frame: Frame): (Conn, Shared) {
    match frame
    case UserMessage(clientId, content, image) =>
      if (content == "" && image == "") || !isId(clientId) || conn.turnActive then (conn, sh)
      else
        var stored := if content == "" then "[image attached]" else content;
        (conn.(turnActive := true, reader := Accepting(ChatMessage("user", stored, sh.now, clientId, ""))), sh)
    case NewChat => if conn.turnActive then (conn, sh) else (conn.(reader := Clearing), sh)
    case SwitchSession(target) =>
      if target == "" || conn.turnActive then (conn, sh) else (conn.(reader := Selecting(target)), sh)
    case SyncSession => (conn, sh.(store := Fetched(sh.store, conn.sessionID, sh.now).0))
    case ReadError => (conn.(reader := Closed), sh)
  }

  /** AppendMessageOnce and what the reader does with its answer. */
  function AppendStep(conn: Conn, c: nat, sh: Shared, msg: ChatMessage, fault: Fault): (Conn, Shared) {
    if fault.Lost? then (conn.(reader := Releasing), sh) else
    var r := AppendOnce(sh.store, conn.sessionID, msg, sh.now);
    if !r.1.Added? || fault.Late? then (conn.(reader := Releasing), sh.(store := r.0))
    else
      var shown := r.1.messages;
      var history := if shown == [] then [] else shown[..|shown| - 1];
      (conn.(reader := Launching(Turn(|sh.accepted|, msg.clientId, history, Loading))),
       sh.(store := r.0, accepted := sh.accepted + [Accepted(c, conn.sessionID, msg.clientId)]))
  }

  function ReaderStep(conn: Conn, c: nat, sh: Shared, newId: string, fault: Fault): (Conn, Shared) {
    match conn.reader
    case Accepting(msg) => AppendStep(conn, c, sh, msg, fault)
    case Releasing => (conn.(turnActive := false, reader := Waiting), sh)
    case Launching(turn) => (conn.(turns := conn.turns + [turn], reader := Waiting), sh)
    case Clearing =>
      if newId in sh.created then (conn, sh)
      else (conn.(reader := Assigning(newId)),
            sh.(store := Created(sh.store, newId, conn.userID, sh.now), created := sh.created + {newId}))
    case Selecting(target) =>
      if Live(sh.store, target, sh.now) && sh.store.sessions[target].userID == conn.userID && fault.Clean?
      then (conn.(reader := Fetching(target)), sh)
      else (conn.(reader := Waiting), sh)
    case Fetching(target) =>
      var r := Fetched(sh.store, target, sh.now);
      (conn.(reader := if r.1.Some? then Assigning(target) else Waiting), sh.(store := r.0))
    case Assigning(target) => (conn.(sessionID := target, reader := Waiting), sh)
    case _ => (conn, sh)
  }

  function Removed(turns: seq<Turn>, i: nat): seq<Turn>
    requires i < |turns|
  {
    turns[..i] + turns[i + 1..]
  }

  function InPhase(conn: Conn, i: nat, phase: Phase): Conn
    requires i < |conn.turns|
  {
    conn.(turns := conn.turns[i := conn.turns[i].(phase := phase)])
  }

  /** The next step of a turn. It reads the connection's sessionID anew each time. */
  function TurnStep(conn: Conn, i: nat, sh: Shared, fault: Fault, text: string, context: ProviderContext)
    : (Conn, Shared)
    requires i < |conn.turns|
  {
    var turn := conn.turns[i];
    match turn.phase
    case Loading =>
      if !fault.Clean? then (InPhase(conn, i, Done), sh)
      else
        var loaded := ContextFor(sh.store, conn.sessionID, ANTHROPIC_PROVIDER, sh.now);
        var live := Live(sh.store, conn.sessionID, sh.now);
        (InPhase(conn, i, Running(loaded)),
         sh.(loads := sh.loads + [Load(turn.index, conn.sessionID, |sh.replies|, live, loaded)]))
    case Running(_) =>
      if !fault.Clean? then (InPhase(conn, i, Done), sh)
      else (InPhase(conn, i, Storing(ChatMessage("assistant", text, sh.now, "", turn.clientId), context)), sh)
    case Storing(reply, newContext) =>
      if fault.Lost? then (InPhase(conn, i, Done), sh) else
      var r := Commit(sh.store, conn.sessionID, reply, newContext, sh.now);
      (InPhase(conn, i, Done),
       sh.(store := r.0,
           replies := if r.1 then sh.replies + [Reply(turn.index, conn.sessionID, reply, newContext)] else sh.replies))
    case Done => (conn.(turnActive := false, turns := Removed(conn.turns, i)), sh)
  }

  function With(w: World, c: nat, r: (Conn, Shared)): World
    requires c < |w.conns|
  {
    World(w.conns[c := r.0], r.1)
  }

  /** One atomic step of the whole; a step that is not enabled changes nothing. */
  function Apply(isId: string -> bool, w: World, step: Step): World {
    var sh := w.shared;
    match step
    case Connect(userID, active, newId) =>
      if Live(sh.store, active, sh.now) && sh.store.sessions[active].userID == userID then
        World(w.conns + [Conn(userID, active, false, Waiting, [])], sh)
      else if newId in sh.created then w
      else
        World(w.conns + [Conn(userID, newId, false, Waiting, [])],
              sh.(store := Created(sh.store, newId, userID, sh.now), created := sh.created + {newId}))
    case Read(c, frame) =>
      if c < |w.conns| && w.conns[c].reader.Waiting? then With(w, c, ReadFrame(isId, w.conns[c], sh, frame)) else w
    case Proceed(c, newId, fault) =>
      if c < |w.conns| then With(w, c, ReaderStep(w.conns[c], c, sh, newId, fault)) else w
    case Work(c, i, fault, text, context) =>
      if c < |w.conns| && i < |w.conns[c].turns| then With(w, c, TurnStep(w.conns[c], i, sh, fault, text, context))
      else w
    case Sweep => w.(shared := sh.(store := Cleaned(sh.store, sh.now)))
    case Tick(d) => w.(shared := sh.(now := sh.now + d))
  }

  function Initial(ttl: int, limit: int, now: int): World {
    World([], Shared(Store(map[], map[], map[], ttl, limit), now, {}, [], [], []))
  }

  /** The first n steps. */
  function RunTo(isId: string -> bool, w: World, steps: seq<Step>, n: nat): World
    requires n <= |steps|
  {
    if n == 0 then w else Apply(isId, RunTo(isId, w, steps, n - 1), steps[n - 1])
  }

  // ----- Invariant of one connection -----

  /** The reader has set the flag and not yet passed it on. */
  predicate Holds(conn: Conn) {
    conn.reader.Accepting? || conn.reader.Releasing? || conn.reader.Launching?
  }

  /** The flag has exactly one holder when set and none when clear. */
  predicate OneHolder(conn: Conn) {
    |conn.turns| + (if Holds(conn) then 1 else 0) == (if conn.turnActive then 1 else 0)
  }

  /** The reader is between its look at the flag and the end of a session switch. */
  predicate Switching(conn: Conn) {
    conn.reader.Clearing? || conn.reader.Selecting? || conn.reader.Fetching? || conn.reader.Assigning?
  }

  predicate Answered(sh: Shared, turn: nat) {
    exists r | 0 <= r < |sh.replies| :: sh.replies[r].turn == turn
  }

  /** The turn belongs to this connection, was accepted for the session it is on now,
      and its message is unanswered until it commits. */
  predicate Owned(turn: Turn, conn: Conn, c: nat, sh: Shared) {
    && turn.index < |sh.accepted|
    && sh.accepted[turn.index] == Accepted(c, conn.sessionID, turn.clientId)
    && (!turn.phase.Done? ==> !Answered(sh, turn.index))
    && (turn.phase.Storing? ==> turn.phase.reply.role == "assistant" && turn.phase.reply.inReplyTo == turn.clientId)
  }

  predicate ReaderOk(isId: string -> bool, conn: Conn, c: nat, sh: Shared) {
    match conn.reader
    case Accepting(msg) => msg.role == "user" && isId(msg.clientId)
    case Launching(turn) => Owned(turn, conn, c, sh) && turn.phase.Loading?
    case Assigning(target) => target in sh.created
    case _ => true
  }

  predicate ConnOk(isId: string -> bool, conn: Conn, c: nat, sh: Shared) {
    && OneHolder(conn)
    && (Switching(conn) ==> !conn.turnActive)
    && conn.sessionID in sh.created
    && ReaderOk(isId, conn, c, sh)
    && forall i | 0 <= i < |conn.turns| :: Owned(conn.turns[i], conn, c, sh)
  }

  // ----- Invariant of the shared state -----

  predicate Remembered(store: Store, a: Accepted) {
    a.sessionID in store.sessions ==> a.clientId in KnownIds(store, a.sessionID)
  }

  predicate LoadOk(l: Load, accepted: seq<Accepted>) {
    l.turn < |accepted| && accepted[l.turn].sessionID == l.sessionID
  }

  predicate ReplyOk(r: Reply, accepted: seq<Accepted>) {
    && r.turn < |accepted|
    && accepted[r.turn].sessionID == r.sessionID
    && accepted[r.turn].clientId == r.message.inReplyTo
  }

  predicate SameMessage(a: Accepted, b: Accepted) {
    a.sessionID == b.sessionID && a.clientId == b.clientId
  }

  predicate AcceptedOk(sh: Shared) {
    && (forall k | 0 <= k < |sh.accepted| ::
          sh.accepted[k].sessionID in sh.created && Remembered(sh.store, sh.accepted[k]))
    && (forall j, k | 0 <= j < k < |sh.accepted| :: !SameMessage(sh.accepted[j], sh.accepted[k]))
  }

  predicate RepliesOk(sh: Shared) {
    && (forall r | 0 <= r < |sh.replies| :: ReplyOk(sh.replies[r], sh.accepted))
    && (forall q, r | 0 <= q < r < |sh.replies| :: sh.replies[q].turn != sh.replies[r].turn)
  }

  predicate SharedOk(sh: Shared) {
    && sh.store.sessions.Keys <= sh.created
    && AcceptedOk(sh)
    && RepliesOk(sh)
    && forall l | 0 <= l < |sh.loads| :: LoadOk(sh.loads[l], sh.accepted)
  }

  ghost predicate Inv(isId: string -> bool, w: World) {
    && SharedOk(w.shared)
    && forall c | 0 <= c < |w.conns| :: ConnOk(isId, w.conns[c], c, w.shared)
  }

  // ----- Steps of one connection keep the invariant -----

  /** What a step of connection c may do to the shared state, as the others see it. */
  predicate Grows(a: Shared, b: Shared, c: nat) {
    && a.created <= b.created
    && a.accepted <= b.accepted
    && (b.replies == a.replies || GrowsByReply(a, b, c))
  }

  predicate GrowsByReply(a: Shared, b: Shared, c: nat) {
    && |b.replies| == |a.replies| + 1
    && b.replies[..|a.replies|] == a.replies
    && var r := b.replies[|a.replies|];
    r.turn < |b.accepted| && b.accepted[r.turn].conn == c
  }

  lemma NewlyAnswered(a: Shared, b: Shared, c: nat, turn: nat)
    requires Grows(a, b, c) && turn < |a.accepted| && a.accepted[turn].conn != c
    ensures Answered(b, turn) <==> Answered(a, turn)
  {
    if r :| 0 <= r < |a.replies| && a.replies[r].turn == turn {
      assert b.replies[r].turn == turn;
    }
    if r :| 0 <= r < |b.replies| && b.replies[r].turn == turn {
      assert r < |a.replies|;
      assert a.replies[r] == b.replies[r];
    }
  }

  lemma OwnedByOther(turn: Turn, conn: Conn, d: nat, a: Shared, b: Shared, c: nat)
    requires Owned(turn, conn, d, a) && Grows(a, b, c) && c != d
    ensures Owned(turn, conn, d, b)
  {
    NewlyAnswered(a, b, c, turn.index);
  }

  /** A step of one connection disturbs no other. */
  lemma OtherConnOk(isId: string -> bool, conn: Conn, d: nat, a: Shared, b: Shared, c: nat)
    requires ConnOk(isId, conn, d, a) && Grows(a, b, c) && c != d
    ensures ConnOk(isId, conn, d, b)
  {
    if conn.reader.Launching? {
      OwnedByOther(conn.reader.turn, conn, d, a, b, c);
    }
    forall i | 0 <= i < |conn.turns|
      ensures Owned(conn.turns[i], conn, d, b)
    {
      OwnedByOther(conn.turns[i], conn, d, a, b, c);
    }
  }

  /** Steps that only lose sessions, or lengthen their lists, keep every id remembered. */
  predicate StoreKeeps(a: Store, b: Store) {
    && b.sessions.Keys <= a.sessions.Keys
    && forall id | id in b.sessions :: KnownIds(a, id) <= KnownIds(b, id)
  }

  lemma SharedKeptByStore(sh: Shared, store: Store)
    requires SharedOk(sh) && StoreKeeps(sh.store, store)
    ensures SharedOk(sh.(store := store))
  {
    forall k | 0 <= k < |sh.accepted|
      ensures Remembered(store, sh.accepted[k])
    {
      assert Remembered(sh.store, sh.accepted[k]);
    }
  }

  lemma SharedKeptByCreation(sh: Shared, newId: string, userID: string)
    requires SharedOk(sh) && newId !in sh.created
    ensures SharedOk(sh.(store := Created(sh.store, newId, userID, sh.now), created := sh.created + {newId}))
  {
    var store := Created(sh.store, newId, userID, sh.now);
    forall k | 0 <= k < |sh.accepted|
      ensures Remembered(store, sh.accepted[k])
    {
      assert Remembered(sh.store, sh.accepted[k]);
    }
  }

  lemma FetchedKeeps(st: Store, id: string, now: int)
    ensures StoreKeeps(st, Fetched(st, id, now).0)
  {
  }

  lemma AppendKeeps(st: Store, id: string, msg: ChatMessage, now: int)
    ensures StoreKeeps(st, AppendOnce(st, id, msg, now).0)
  {
  }

  lemma CommitKeeps(st: Store, id: string, msg: ChatMessage, context: ProviderContext, now: int)
    ensures StoreKeeps(st, Commit(st, id, msg, context, now).0)
  {
  }

  lemma ReadFrameKeeps(isId: string -> bool, conn: Conn, c: nat, sh: Shared, frame: Frame)
    requires SharedOk(sh) && ConnOk(isId, conn, c, sh) && conn.reader.Waiting?
    ensures var r := ReadFrame(isId, conn, sh, frame);
            SharedOk(r.1) && ConnOk(isId, r.0, c, r.1) && Grows(sh, r.1, c)
  {
    FetchedKeeps(sh.store, conn.sessionID, sh.now);
    SharedKeptByStore(sh, Fetched(sh.store, conn.sessionID, sh.now).0);
    var r := ReadFrame(isId, conn, sh, frame);
    forall i | 0 <= i < |conn.turns|
      ensures Owned(conn.turns[i], r.0, c, r.1)
    {
      assert Owned(conn.turns[i], conn, c, sh);
    }
  }

  lemma AppendStepKeeps(isId: string -> bool, conn: Conn, c: nat, sh: Shared, fault: Fault)
    requires !isId("")
    requires SharedOk(sh) && ConnOk(isId, conn, c, sh) && conn.reader.Accepting?
    ensures var r := AppendStep(conn, c, sh, conn.reader.msg, fault);
            SharedOk(r.1) && ConnOk(isId, r.0, c, r.1) && Grows(sh, r.1, c)
  {
    var msg := conn.reader.msg;
    var appended := AppendOnce(sh.store, conn.sessionID, msg, sh.now);
    var r := AppendStep(conn, c, sh, msg, fault);
    AppendKeeps(sh.store, conn.sessionID, msg, sh.now);
    SharedKeptByStore(sh, appended.0);
    if r.0.reader.Launching? {
      var a := Accepted(c, conn.sessionID, msg.clientId);
      forall k | 0 <= k < |sh.accepted|
        ensures !SameMessage(sh.accepted[k], a)
      {
        assert Remembered(sh.store, sh.accepted[k]);
      }
      assert Remembered(appended.0, a);
      AcceptanceKeeps(sh.(store := appended.0), a);
    }
  }

  /** A newly accepted message joins the history without being answered. */
  lemma AcceptanceKeeps(sh: Shared, a: Accepted)
    requires SharedOk(sh) && a.sessionID in sh.created && Remembered(sh.store, a)
    requires forall k | 0 <= k < |sh.accepted| :: !SameMessage(sh.accepted[k], a)
    ensures SharedOk(sh.(accepted := sh.accepted + [a])) && !Answered(sh.(accepted := sh.accepted + [a]), |sh.accepted|)
  {
  }

  lemma ReaderStepKeeps(isId: string -> bool, conn: Conn, c: nat, sh: Shared, newId: string, fault: Fault)
    requires !isId("")
    requires SharedOk(sh) && ConnOk(isId, conn, c, sh)
    ensures var r := ReaderStep(conn, c, sh, newId, fault);
            SharedOk(r.1) && ConnOk(isId, r.0, c, r.1) && Grows(sh, r.1, c)
  {
    match conn.reader
    case Accepting(msg) => AppendStepKeeps(isId, conn, c, sh, fault);
    case Clearing =>
      if newId !in sh.created {
        SharedKeptByCreation(sh, newId, conn.userID);
      }
    case Fetching(target) =>
      FetchedKeeps(sh.store, target, sh.now);
      SharedKeptByStore(sh, Fetched(sh.store, target, sh.now).0);
    case Launching(turn) =>
      var r := ReaderStep(conn, c, sh, newId, fault);
      forall i | 0 <= i < |r.0.turns|
        ensures Owned(r.0.turns[i], r.0, c, sh)
      {
      }
    case _ =>
  }

  lemma CommitStepKeeps(isId: string -> bool, conn: Conn, c: nat, i: nat, sh: Shared, text: string,
        context: ProviderContext)
    requires SharedOk(sh) && ConnOk(isId, conn, c, sh)
    requires i < |conn.turns| && conn.turns[i].phase.Storing?
    ensures var r := TurnStep(conn, i, sh, Clean, text, context);
            SharedOk(r.1) && ConnOk(isId, r.0, c, r.1) && Grows(sh, r.1, c)
  {
    var turn := conn.turns[i];
    assert Owned(turn, conn, c, sh);
    var committed := Commit(sh.store, conn.sessionID, turn.phase.reply, turn.phase.newContext, sh.now);
    CommitKeeps(sh.store, conn.sessionID, turn.phase.reply, turn.phase.newContext, sh.now);
    SharedKeptByStore(sh, committed.0);
    if committed.1 {
      ReplyKeeps(sh.(store := committed.0), Reply(turn.index, conn.sessionID, turn.phase.reply, turn.phase.newContext));
    }
  }

  lemma ReplyKeeps(sh: Shared, r: Reply)
    requires SharedOk(sh) && ReplyOk(r, sh.accepted) && !Answered(sh, r.turn)
    ensures SharedOk(sh.(replies := sh.replies + [r]))
  {
  }

  lemma TurnStepKeeps(isId: string -> bool, conn: Conn, c: nat, i: nat, sh: Shared, fault: Fault, text: string,
                      context: ProviderContext)
    requires SharedOk(sh) && ConnOk(isId, conn, c, sh) && i < |conn.turns|
    ensures var r := TurnStep(conn, i, sh, fault, text, context);
            SharedOk(r.1) && ConnOk(isId, r.0, c, r.1) && Grows(sh, r.1, c)
  {
    assert Owned(conn.turns[i], conn, c, sh);
    if conn.turns[i].phase.Storing? && !fault.Lost? {
      CommitStepKeeps(isId, conn, c, i, sh, text, context);
    }
  }

  lemma StepKeeps(isId: string -> bool, w: World, step: Step)
    requires !isId("") && Inv(isId, w)
    ensures Inv(isId, Apply(isId, w, step))
  {
    var sh, after := w.shared, Apply(isId, w, step);
    match step
    case Connect(userID, active, newId) =>
      if newId !in sh.created {
        SharedKeptByCreation(sh, newId, userID);
      }
      Undisturbed(isId, w, after, |w.conns|);
    case Read(c, frame) =>
      if after != w {
        ReadFrameKeeps(isId, w.conns[c], c, sh, frame);
        Undisturbed(isId, w, after, c);
      }
    case Proceed(c, newId, fault) =>
      if after != w {
        ReaderStepKeeps(isId, w.conns[c], c, sh, newId, fault);
        Undisturbed(isId, w, after, c);
      }
    case Work(c, i, fault, text, context) =>
      if after != w {
        TurnStepKeeps(isId, w.conns[c], c, i, sh, fault, text, context);
        Undisturbed(isId, w, after, c);
      }
    case Sweep =>
      SharedKeptByStore(sh, Cleaned(sh.store, sh.now));
      Undisturbed(isId, w, after, |w.conns|);
    case Tick(_) =>
      Undisturbed(isId, w, after, |w.conns|);
  }

  lemma Undisturbed(isId: string -> bool, w: World, after: World, c: nat)
    requires Inv(isId, w) && Grows(w.shared, after.shared, c)
    requires |w.conns| <= |after.conns|
    requires forall d | 0 <= d < |w.conns| && d != c :: after.conns[d] == w.conns[d]
    ensures forall d | 0 <= d < |w.conns| && d != c :: ConnOk(isId, after.conns[d], d, after.shared)
  {
    forall d | 0 <= d < |w.conns| && d != c
      ensures ConnOk(isId, after.conns[d], d, after.shared)
    {
      OtherConnOk(isId, w.conns[d], d, w.shared, after.shared, c);
    }
  }

  lemma {:induction false} RunKeeps(isId: string -> bool, w: World, steps: seq<Step>, n: nat)
    requires !isId("") && Inv(isId, w) && n <= |steps|
    ensures Inv(isId, RunTo(isId, w, steps, n))
  {
    if n > 0 {
      RunKeeps(isId, w, steps, n - 1);
      StepKeeps(isId, RunTo(isId, w, steps, n - 1), steps[n - 1]);
    }
  }

  // ----- What holds in every run -----

  /** Whatever the interleaving, a connection has at most one turn alive, its flag
      says so, and while one is alive the reader is not switching sessions. */
  lemma AtMostOneTurn(isId: string -> bool, ttl: int, limit: int, now: int, steps: seq<Step>, c: nat)
    requires !isId("") && c < |RunTo(isId, Initial(ttl, limit, now), steps, |steps|).conns|
    ensures var conn := RunTo(isId, Initial(ttl, limit, now), steps, |steps|).conns[c];
            |conn.turns| <= 1 && (conn.turns != [] ==> conn.turnActive && !Switching(conn))
  {
    RunKeeps(isId, Initial(ttl, limit, now), steps, |steps|);
  }

  /** Every context load and every commit of a turn goes to the session its user
      message was appended to. */
  lemma TurnsStayInTheirSession(isId: string -> bool, ttl: int, limit: int, now: int, steps: seq<Step>)
    requires !isId("")
    ensures var sh := RunTo(isId, Initial(ttl, limit, now), steps, |steps|).shared;
            && (forall l | 0 <= l < |sh.loads| :: LoadOk(sh.loads[l], sh.accepted))
            && (forall r | 0 <= r < |sh.replies| :: ReplyOk(sh.replies[r], sh.accepted))
  {
    RunKeeps(isId, Initial(ttl, limit, now), steps, |steps|);
  }

  predicate SameReply(a: Reply, b: Reply) {
    a.sessionID == b.sessionID && a.message.inReplyTo == b.message.inReplyTo
  }

  /** However often a client resends a message, on however many connections, its
      session starts one turn for it and gets one reply. */
  lemma OncePerMessage(isId: string -> bool, ttl: int, limit: int, now: int, steps: seq<Step>)
    requires !isId("")
    ensures var sh := RunTo(isId, Initial(ttl, limit, now), steps, |steps|).shared;
            && (forall j, k | 0 <= j < k < |sh.accepted| :: !SameMessage(sh.accepted[j], sh.accepted[k]))
            && (forall q, r | 0 <= q < r < |sh.replies| :: !SameReply(sh.replies[q], sh.replies[r]))
  {
    RunKeeps(isId, Initial(ttl, limit, now), steps, |steps|);
    var sh := RunTo(isId, Initial(ttl, limit, now), steps, |steps|).shared;
    forall q, r | 0 <= q < r < |sh.replies|
      ensures !SameReply(sh.replies[q], sh.replies[r])
    {
      assert ReplyOk(sh.replies[q], sh.accepted) && ReplyOk(sh.replies[r], sh.accepted);
      var a, b := sh.accepted[sh.replies[q].turn], sh.accepted[sh.replies[r].turn];
      assert !SameMessage(a, b);
    }
  }

  // ----- The session object -----

  /** The reader's handlers run to their end, without the turn goroutine in between. */
  class CopilotChatSession {
    const userID: string
    var sessionID: string
    var history: seq<ChatMessage>
    var turnActive: bool

    constructor (userID: string, sessionID: string, history: seq<ChatMessage>)
      ensures this.userID == userID && this.sessionID == sessionID && this.history == history && !turnActive
    {
      this.userID, this.sessionID, this.history, turnActive := userID, sessionID, history, false;
    }

    ghost function AsConn(turns: seq<Turn>): Conn
      reads this
    {
      Conn(userID, sessionID, turnActive, Waiting, turns)
    }

    method BeginTurn() returns (begun: bool)
      modifies `turnActive
      ensures turnActive && begun == !old(turnActive)
    {
      begun := !turnActive;
      if begun {
        turnActive := true;
      }
    }

    method HasActiveTurn() returns (active: bool)
      ensures active == turnActive
    {
      active := turnActive;
    }

    method EndTurn()
      modifies `turnActive
      ensures !turnActive
    {
      turnActive := false;
    }

    /** The turn to start, as its message id and the history it is given. */
    method AcceptCopilotMessage(isId: string -> bool, store: InMemoryStore, clientId: string, content: string,
                                image: string, now: int, ghost turns: seq<Turn>, ghost c: nat, ghost sh: Shared)
      returns (launch: Option<(string, seq<ChatMessage>)>)
      requires store.Contents() == sh.store && sh.now == now
      requires content != "" || image != ""
      modifies this, store
      ensures sessionID == old(sessionID)
      ensures var read := ReadFrame(isId, old(AsConn(turns)), sh, UserMessage(clientId, content, image));
              if read.0.reader.Waiting? then
                launch == None && store.Contents() == sh.store && turnActive == old(turnActive)
              else
                var next := AppendStep(read.0, c, read.1, read.0.reader.msg, Clean);
                && store.Contents() == next.1.store
                && turnActive == next.0.reader.Launching?
                && launch == (if next.0.reader.Launching?
                              then Some((next.0.reader.turn.clientId, next.0.reader.turn.history)) else None)
    {
      launch := None;
      if !isId(clientId) {
        return;
      }
      var begun := BeginTurn();
      if !begun {
        return;
      }
      var storedContent := if content == "" then "[image attached]" else content;
      var receipt := store.AppendMessageOnce(sessionID, ChatMessage("user", storedContent, now, clientId, ""), now);
      if receipt.Refused? {
        EndTurn();
        return;
      }
      history := receipt.messages;
      if receipt.Duplicate? {
        EndTurn();
        return;
      }
      var historyForAPI := receipt.messages;
      if |historyForAPI| > 0 {
        historyForAPI := historyForAPI[..|historyForAPI| - 1];
      }
      launch := Some((clientId, historyForAPI));
    }

    method HandleCopilotNewChat(store: InMemoryStore, newId: string, now: int)
      modifies this, store
      ensures store.Contents() == Created(old(store.Contents()), newId, userID, now)
      ensures sessionID == newId && history == [] && turnActive == old(turnActive)
    {
      store.CreateSession(newId, userID, [], now);
      sessionID := newId;
      history := [];
    }

    /** A new_chat frame: refused exactly while a turn is active, as the reader's
        dispatch and its two steps have it. */
    method ReceiveNewChat(isId: string -> bool, store: InMemoryStore, newId: string, now: int, ghost turns: seq<Turn>,
                          ghost c: nat, ghost sh: Shared)
      returns (done: bool)
      requires store.Contents() == sh.store && sh.now == now && newId !in sh.created
      modifies this, store
      ensures var read := ReadFrame(isId, old(AsConn(turns)), sh, NewChat);
              if read.0.reader.Waiting? then
                !done && AsConn(turns) == read.0 && store.Contents() == read.1.store && history == old(history)
              else
                var created := ReaderStep(read.0, c, read.1, newId, Clean);
                var moved := ReaderStep(created.0, c, created.1, newId, Clean);
                done && AsConn(turns) == moved.0 && store.Contents() == moved.1.store && history == []
    {
      var busy := HasActiveTurn();
      if busy {
        return false;
      }
      HandleCopilotNewChat(store, newId, now);
      done := true;
    }

    /** `active` is the answer of SetActiveSession. A refusal leaves the session where it was. */
    method HandleCopilotSwitchSession(store: InMemoryStore, target: string, active: bool, now: int)
      returns (moved: bool)
      modifies this, store
      ensures moved <==> active && Live(old(store.Contents()), target, now)
      ensures moved ==> sessionID == target && history == old(store.sessions)[target].messages
      ensures !moved ==> sessionID == old(sessionID) && history == old(history)
      ensures store.Contents() ==
              if active then Fetched(old(store.Contents()), target, now).0 else old(store.Contents())
      ensures turnActive == old(turnActive)
    {
      if !active {
        return false;
      }
      var found := store.Get(target, now);
      if found.None? {
        return false;
      }
      sessionID := target;
      history := found.value.messages;
      moved := true;
    }

    /** A switch_session frame. SetActiveSession grants only live sessions of the commander. */
    method ReceiveSwitchSession(isId: string -> bool, store: InMemoryStore, target: string, active: bool, now: int,
                                ghost turns: seq<Turn>, ghost c: nat, ghost sh: Shared)
      returns (moved: bool)
      requires store.Contents() == sh.store && sh.now == now
      requires active ==> Live(sh.store, target, now) && sh.store.sessions[target].userID == userID
      modifies this, store
      ensures var read := ReadFrame(isId, old(AsConn(turns)), sh, SwitchSession(target));
              if read.0.reader.Waiting? then
                !moved && AsConn(turns) == read.0 && store.Contents() == read.1.store && history == old(history)
              else
                var selected := ReaderStep(read.0, c, read.1, "", if active then Clean else Lost);
                if selected.0.reader.Waiting? then
                  && !moved && AsConn(turns) == selected.0 && store.Contents() == selected.1.store
                  && history == old(history)
                else
                  var fetched := ReaderStep(selected.0, c, selected.1, "", Clean);
                  var switched := ReaderStep(fetched.0, c, fetched.1, "", Clean);
                  && moved && AsConn(turns) == switched.0 && store.Contents() == switched.1.store
                  && target in sh.store.sessions && history == sh.store.sessions[target].messages
    {
      if target == "" {
        return false;
      }
      var busy := HasActiveTurn();
      if busy {
        return false;
      }
      moved := HandleCopilotSwitchSession(store, target, active, now);
    }
  }
}
