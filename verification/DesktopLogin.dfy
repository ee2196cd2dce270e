/** The desktop login: initiate, browser callback and poll over Redis records, in
    interleaved steps: internal/httpapi/commander_client_auth.go. */
module DesktopLogin {
  const PENDING_TTL := 10 * 60
  const COMPLETE_TTL := 5 * 60

  datatype Record = Pending(until: int) | Complete(token: string, until: int)

  datatype Index = Index(sessionID: string, until: int)

  /** The next Redis call of a request. A callback goes on to exchange the code and
      to issue a token after its lookups, and tracks the token before it completes
      the session. */
  datatype Thread =
    | InitStore(id: string, state: string)
    | InitIndex(id: string, state: string)
    | FindIndex(state: string)
    | FindRecord(id: string, state: string)
    | IssueToken(id: string, state: string)
    | TrackToken(id: string, state: string, token: string)
    | CompleteRecord(id: string, state: string, token: string)
    | DropIndex(state: string)
    | PollRead(id: string)
    | PollDelete(id: string, token: string)
    | Over

  datatype Handed = Handed(id: string, token: string)

  /** Where a token is: with callback i, stored for its session, or returned as number k. */
  datatype Stage = WithCallback(i: nat) | Stored | Returned(k: nat)

  /** History beside the records: `made` are the pairs of state and session that were
      initiated, `issuedFor` the state each token was issued for, `tracked` and
      `untracked` the tokens whose SADD succeeded and failed, `stage` where it
      is, `handed` what polls returned, `shared` how often a poll read a token that
      another one held or had returned. */
  datatype World = World(
    now: int,
    records: map<string, Record>,
    index: map<string, Index>,
    made: map<string, string>,
    issuedFor: map<string, string>,
    tracked: set<string>,
    untracked: set<string>,
    stage: map<string, Stage>,
    handed: seq<Handed>,
    shared: nat,
    threads: seq<Thread>)

  datatype Step =
    | Tick(d: nat)
    | Spawn(thread: Thread)
    | Run(i: nat, newToken: string, ok: bool)

  predicate Starts(t: Thread) {
    t.InitStore? || t.FindIndex? || t.PollRead?
  }

  predicate LiveRecord(w: World, id: string) {
    id in w.records && w.now < w.records[id].until
  }

  predicate LiveIndex(w: World, state: string) {
    state in w.index && w.now < w.index[state].until
  }

  /** A poll between its two calls holds the token. */
  predicate Holds(t: Thread, token: string) {
    t.PollDelete? && t.token == token
  }

  /** Some poll holds the token or has returned it. */
  predicate Out(w: World, token: string) {
    || (exists j | 0 <= j < |w.threads| :: Holds(w.threads[j], token))
    || (exists k | 0 <= k < |w.handed| :: w.handed[k].token == token)
  }

  /** One step of request i. Session ids, states and tokens are new when made; `ok`
      is false where the call, the exchange or the issue fails. */
  function Operate(w: World, i: nat, t: Thread, newToken: string, ok: bool): (World, Thread) {
    match t
    case InitStore(id, state) =>
      if !ok || state in w.made || id in w.made.Values then (w, Over)
      else
        (w.(records := w.records[id := Pending(w.now + PENDING_TTL)], made := w.made[state := id]),
         InitIndex(id, state))
    case InitIndex(id, state) =>
      (if ok then w.(index := w.index[state := Index(id, w.now + PENDING_TTL)]) else w, Over)
    case FindIndex(state) =>
      (w, if ok && LiveIndex(w, state) then FindRecord(w.index[state].sessionID, state) else Over)
    case FindRecord(id, state) => (w, if ok && LiveRecord(w, id) then IssueToken(id, state) else Over)
    case IssueToken(id, state) =>
      if !ok || newToken in w.issuedFor then (w, Over)
      else
        (w.(issuedFor := w.issuedFor[newToken := state], stage := w.stage[newToken := WithCallback(i)]),
         TrackToken(id, state, newToken))
    case TrackToken(id, state, token) =>
      (if ok then w.(tracked := w.tracked + {token}) else w.(untracked := w.untracked + {token}),
       CompleteRecord(id, state, token))
    case CompleteRecord(id, state, token) =>
      if !ok then (w, Over)
      else
        (w.(records := w.records[id := Complete(token, w.now + COMPLETE_TTL)], stage := w.stage[token := Stored]),
         DropIndex(state))
    case DropIndex(state) => (if ok then w.(index := w.index - {state}) else w, Over)
    case PollRead(id) =>
      if !ok || !LiveRecord(w, id) || w.records[id].Pending? then (w, Over)
      else
        (if Out(w, w.records[id].token) then w.(shared := w.shared + 1) else w, PollDelete(id, w.records[id].token))
    case PollDelete(id, token) =>
      (w.(records := if ok then w.records - {id} else w.records, handed := w.handed + [Handed(id, token)],
          stage := w.stage[token := Returned(|w.handed|)]), Over)
    case Over => (w, t)
  }

  /** A login that is initiated can be completed for ten minutes: both records are there
      until then, and no longer. */
  lemma InitiationLasts(w: World, i: nat, id: string, state: string, d: nat)
    requires state !in w.made && id !in w.made.Values
    ensures var (a, t) := Operate(w, i, InitStore(id, state), "", true);
            var (b, u) := Operate(a, i, t, "", true);
            var later := b.(now := b.now + d);
            var found := Operate(later, i, FindIndex(state), "", true).1;
            && a.made == w.made[state := id] && t == InitIndex(id, state) && u == Over
            && found == (if d < 600 then FindRecord(id, state) else Over)
            && Operate(later, i, FindRecord(id, state), "", true).1 == (if d < 600 then IssueToken(id, state) else Over)
            && Operate(later, i, PollRead(id), "", true).1 == Over
            && b.records - {id} == w.records - {id} && b.index - {state} == w.index - {state}
  {
  }

  /** A callback that has found its session issues a token for its state, tracks it, stores
      it for its session and drops the index, whatever becomes of the tracking. */
  lemma CallbackGoesOn(w: World, i: nat, id: string, state: string, token: string, ok: bool)
    requires token !in w.issuedFor
    ensures var (a, t) := Operate(w, i, IssueToken(id, state), token, true);
            var (b, u) := Operate(a, i, t, "", ok);
            var (c, v) := Operate(b, i, u, "", true);
            var (e, x) := Operate(c, i, v, "", true);
            && a.issuedFor == w.issuedFor[token := state] && t == TrackToken(id, state, token)
            && (if ok then b.tracked == w.tracked + {token} && b.untracked == w.untracked
                else b.untracked == w.untracked + {token} && b.tracked == w.tracked)
            && id in c.records && c.records[id].Complete? && c.records[id].token == token
            && c.records - {id} == w.records - {id} && c.handed == w.handed
            && x == Over && e.records == c.records && e.index == w.index - {state}
  {
  }

  /** A completed session gives its token to polls for five minutes; a poll that returns it
      deletes the record where the delete succeeds. A pending or ended one gives nothing. */
  lemma CompletionLasts(w: World, i: nat, id: string, state: string, token: string, d: nat, ok: bool)
    ensures var c := Operate(w, i, CompleteRecord(id, state, token), "", true).0;
            var later := c.(now := c.now + d);
            var (p, t) := Operate(later, i, PollRead(id), "", true);
            && t == (if d < 300 then PollDelete(id, token) else Over)
            && p == later.(shared := p.shared) && (d >= 300 ==> p == later)
            && var (q, u) := Operate(p, i, PollDelete(id, token), "", ok);
               && u == Over && q.handed == w.handed + [Handed(id, token)]
               && q.records == (if ok then p.records - {id} else p.records) && q.index == p.index
  {
  }

  /** A failing lookup, store or poll ends its request and leaves the records as they are. */
  lemma FailuresEnd(w: World, i: nat, t: Thread, newToken: string)
    requires !t.TrackToken? && !t.PollDelete?
    ensures var (after, next) := Operate(w, i, t, newToken, false);
            after == w && next == Over
  {
  }

  function Apply(w: World, step: Step): World {
    match step
    case Tick(d) => w.(now := w.now + d)
    case Spawn(t) => if Starts(t) then w.(threads := w.threads + [t]) else w
    case Run(i, newToken, ok) =>
      if i >= |w.threads| then w
      else
        var r := Operate(w, i, w.threads[i], newToken, ok);
        r.0.(threads := w.threads[i := r.1])
  }

  /** A wait, a request that arrives, and one step of request i. */
  lemma StepsExactly(w: World, d: nat, t: Thread, i: nat, newToken: string, ok: bool)
    ensures Apply(w, Tick(d)) == w.(now := w.now + d)
    ensures Apply(w, Spawn(t))
         == w.(threads := if t.InitStore? || t.FindIndex? || t.PollRead? then w.threads + [t] else w.threads)
    ensures var after := Apply(w, Run(i, newToken, ok));
            if i < |w.threads| then
              var (x, u) := Operate(w, i, w.threads[i], newToken, ok);
              after == x.(threads := after.threads) && after.threads == w.threads[i := u]
            else after == w
  {
  }

  function Initial(now: int): World {
    World(now, map[], map[], map[], map[], {}, {}, map[], [], 0, [])
  }

  function RunTo(w: World, steps: seq<Step>, n: nat): World
    requires n <= |steps|
  {
    if n == 0 then w else Apply(RunTo(w, steps, n - 1), steps[n - 1])
  }

  // ----- Tokens stay with their session -----

  predicate Pair(w: World, state: string, id: string) {
    state in w.made && w.made[state] == id
  }

  /** The callback that was issued the token has tried to track it. */
  predicate Tried(w: World, token: string) {
    token in w.tracked || token in w.untracked
  }

  /** The token was issued for the state that was made with this session, and its
      callback has been through the tracking. */
  predicate Belongs(w: World, id: string, token: string) {
    Tried(w, token) && token in w.issuedFor && Pair(w, w.issuedFor[token], id)
  }

  predicate ThreadOk(w: World, t: Thread) {
    match t
    case InitIndex(id, state) => Pair(w, state, id)
    case FindRecord(id, state) => Pair(w, state, id)
    case IssueToken(id, state) => Pair(w, state, id)
    case TrackToken(id, state, token) => Pair(w, state, id) && token in w.issuedFor && w.issuedFor[token] == state
    case CompleteRecord(id, state, token) => Belongs(w, id, token)
    case PollDelete(id, token) => Belongs(w, id, token)
    case _ => true
  }

  /** No two states are made with the same session. */
  predicate OneState(w: World) {
    forall s, t | s in w.made && t in w.made && s != t :: w.made[s] != w.made[t]
  }

  predicate RecordsOk(w: World) {
    && (forall s | s in w.index :: Pair(w, s, w.index[s].sessionID))
    && (forall id | id in w.records && w.records[id].Complete? :: Belongs(w, id, w.records[id].token))
    && (forall i | 0 <= i < |w.handed| :: Belongs(w, w.handed[i].id, w.handed[i].token))
  }

  predicate Inv(w: World) {
    && OneState(w)
    && RecordsOk(w)
    && forall i | 0 <= i < |w.threads| :: ThreadOk(w, w.threads[i])
  }

  /** Pairs, issues and tracks are only ever added. */
  predicate Grows(a: World, b: World) {
    && (forall s | s in a.made :: s in b.made && b.made[s] == a.made[s])
    && (forall t | t in a.issuedFor :: t in b.issuedFor && b.issuedFor[t] == a.issuedFor[t])
    && a.tracked <= b.tracked && a.untracked <= b.untracked
  }

  lemma OperateGrows(w: World, i: nat, t: Thread, newToken: string, ok: bool)
    requires OneState(w)
    ensures var r := Operate(w, i, t, newToken, ok);
            Grows(w, r.0) && OneState(r.0)
  {
    assert forall s | s in w.made :: w.made[s] in w.made.Values;
  }

  lemma OperateKeepsThread(w: World, i: nat, t: Thread, newToken: string, ok: bool)
    requires RecordsOk(w) && ThreadOk(w, t)
    ensures var r := Operate(w, i, t, newToken, ok);
            ThreadOk(r.0, r.1)
  {
  }

  lemma OperateKeepsRecords(w: World, i: nat, t: Thread, newToken: string, ok: bool)
    requires RecordsOk(w) && ThreadOk(w, t) && Grows(w, Operate(w, i, t, newToken, ok).0)
    ensures RecordsOk(Operate(w, i, t, newToken, ok).0)
  {
    var r := Operate(w, i, t, newToken, ok).0;
    forall id, token | Belongs(w, id, token)
      ensures Belongs(r, id, token)
    {
    }
    forall k | 0 <= k < |r.handed|
      ensures Belongs(r, r.handed[k].id, r.handed[k].token)
    {
      if k < |w.handed| {
        assert r.handed[k] == w.handed[k];
      }
    }
  }

  lemma GrowingKeepsThread(a: World, b: World, t: Thread)
    requires ThreadOk(a, t) && Grows(a, b)
    ensures ThreadOk(b, t)
  {
  }

  lemma StepKeeps(w: World, step: Step)
    requires Inv(w)
    ensures Inv(Apply(w, step))
  {
    if step.Run? && step.i < |w.threads| {
      RunStepKeeps(w, step.i, step.newToken, step.ok);
    }
  }

  lemma RunStepKeeps(w: World, i: nat, newToken: string, ok: bool)
    requires Inv(w) && i < |w.threads|
    ensures Inv(Apply(w, Run(i, newToken, ok)))
  {
    var after, r := Apply(w, Run(i, newToken, ok)), Operate(w, i, w.threads[i], newToken, ok);
    OperateGrows(w, i, w.threads[i], newToken, ok);
    OperateKeepsThread(w, i, w.threads[i], newToken, ok);
    OperateKeepsRecords(w, i, w.threads[i], newToken, ok);
    forall j | 0 <= j < |after.threads|
      ensures ThreadOk(after, after.threads[j])
    {
      GrowingKeepsThread(r.0, after, r.1);
      if j != i {
        GrowingKeepsThread(w, after, w.threads[j]);
      }
    }
  }

  lemma {:induction false} RunKeeps(now: int, steps: seq<Step>, n: nat)
    requires n <= |steps|
    ensures Inv(RunTo(Initial(now), steps, n))
  {
    if n > 0 {
      RunKeeps(now, steps, n - 1);
      StepKeeps(RunTo(Initial(now), steps, n - 1), steps[n - 1]);
    }
  }

  /** Whatever interleaves and fails: a poll only ever returns a token that was issued
      for the state made with that very session, after the tracking call. */
  lemma PollsGetTheirOwn(now: int, steps: seq<Step>, i: nat)
    requires i < |RunTo(Initial(now), steps, |steps|).handed|
    ensures var w := RunTo(Initial(now), steps, |steps|);
            && Belongs(w, w.handed[i].id, w.handed[i].token)
            && forall s | s in w.made && w.made[s] == w.handed[i].id :: s == w.issuedFor[w.handed[i].token]
  {
    RunKeeps(now, steps, |steps|);
  }

  // ----- Tracking -----

  predicate Tracking(t: Thread, token: string) {
    t.TrackToken? && t.token == token
  }

  /** A token is tracked once: by one callback, with one outcome. */
  ghost predicate OneTry(w: World) {
    && (forall token :: !(token in w.tracked && token in w.untracked))
    && (forall token | Tried(w, token) :: token in w.issuedFor)
    && (forall i, token | 0 <= i < |w.threads| && Tracking(w.threads[i], token) ::
          token in w.issuedFor && !Tried(w, token))
    && (forall i, j, token | 0 <= i < j < |w.threads| ::
          !(Tracking(w.threads[i], token) && Tracking(w.threads[j], token)))
  }

  lemma OperateTries(w: World, i: nat, t: Thread, newToken: string, ok: bool)
    ensures var (v, u) := Operate(w, i, t, newToken, ok);
            && (!t.TrackToken? ==> v.tracked == w.tracked && v.untracked == w.untracked)
            && (t.TrackToken? ==> Tried(v, t.token) && !u.TrackToken? && v.issuedFor == w.issuedFor)
            && (u.TrackToken? ==> v.issuedFor == w.issuedFor[u.token := u.state] && u.token !in w.issuedFor)
            && (!u.TrackToken? ==> v.issuedFor == w.issuedFor)
            && (t.TrackToken? ==> forall x | x != t.token :: Tried(v, x) <==> Tried(w, x))
            && (t.TrackToken? && ok ==> v.tracked == w.tracked + {t.token} && v.untracked == w.untracked)
            && (t.TrackToken? && !ok ==> v.untracked == w.untracked + {t.token} && v.tracked == w.tracked)
  {
  }

  lemma RunStepTriesOnce(w: World, i: nat, newToken: string, ok: bool)
    requires OneTry(w) && i < |w.threads|
    ensures OneTry(Apply(w, Run(i, newToken, ok)))
  {
    var after, t := Apply(w, Run(i, newToken, ok)), w.threads[i];
    OperateTries(w, i, t, newToken, ok);
    var u := after.threads[i];
    assert forall j | 0 <= j < |w.threads| && j != i :: after.threads[j] == w.threads[j];
    if t.TrackToken? {
      assert Tracking(w.threads[i], t.token) && !Tried(w, t.token);
    }
    forall token
      ensures !(token in after.tracked && token in after.untracked)
    {
      assert !(token in w.tracked && token in w.untracked);
    }
    if u.TrackToken? {
      assert Tracking(u, u.token);
    }
  }

  lemma StepTriesOnce(w: World, step: Step)
    requires OneTry(w)
    ensures OneTry(Apply(w, step))
  {
    if step.Run? && step.i < |w.threads| {
      RunStepTriesOnce(w, step.i, step.newToken, step.ok);
    }
  }

  lemma {:induction false} RunTriesOnce(now: int, steps: seq<Step>, n: nat)
    requires n <= |steps|
    ensures OneTry(RunTo(Initial(now), steps, n))
  {
    if n > 0 {
      RunTriesOnce(now, steps, n - 1);
      StepTriesOnce(RunTo(Initial(now), steps, n - 1), steps[n - 1]);
    }
  }

  /** A token that a poll returns has been tracked exactly when the SADD of its callback
      did not fail: the code goes on either way. */
  lemma ReturnedIsTrackedExactly(now: int, steps: seq<Step>, i: nat)
    requires i < |RunTo(Initial(now), steps, |steps|).handed|
    ensures var w := RunTo(Initial(now), steps, |steps|);
            w.handed[i].token in w.tracked <==> w.handed[i].token !in w.untracked
  {
    RunKeeps(now, steps, |steps|);
    RunTriesOnce(now, steps, |steps|);
    var w := RunTo(Initial(now), steps, |steps|);
    assert Belongs(w, w.handed[i].id, w.handed[i].token);
  }

  // ----- Single use -----

  /** Polls of one session do not overlap, and their deletes succeed. */
  predicate Apart(w: World, step: Step) {
    step.Run? && step.i < |w.threads| ==>
      var t := w.threads[step.i];
      && (t.PollDelete? ==> step.ok)
      && (t.PollRead? ==> forall j | 0 <= j < |w.threads| && w.threads[j].PollDelete? :: w.threads[j].id != t.id)
  }

  predicate At(w: World, token: string, stage: Stage) {
    token in w.stage && w.stage[token] == stage
  }

  predicate ThreadOnce(w: World, i: nat)
    requires i < |w.threads|
  {
    match w.threads[i]
    case TrackToken(_, _, token) => At(w, token, WithCallback(i))
    case CompleteRecord(_, _, token) => At(w, token, WithCallback(i))
    case PollDelete(_, token) => At(w, token, Stored)
    case _ => true
  }

  predicate OnePoll(threads: seq<Thread>) {
    forall i, j | 0 <= i < j < |threads| && threads[i].PollDelete? && threads[j].PollDelete? ::
      threads[i].id != threads[j].id
  }

  predicate Once(w: World) {
    && (forall i | 0 <= i < |w.threads| :: ThreadOnce(w, i))
    && (forall id | id in w.records && w.records[id].Complete? :: At(w, w.records[id].token, Stored))
    && (forall k | 0 <= k < |w.handed| :: At(w, w.handed[k].token, Returned(k)))
    && (forall token | token in w.stage :: token in w.issuedFor)
    && OnePoll(w.threads)
  }

  lemma IssueOnce(w: World, i: nat, newToken: string, ok: bool)
    requires Inv(w) && Once(w) && i < |w.threads| && w.threads[i].IssueToken?
    ensures Once(Apply(w, Run(i, newToken, ok)))
  {
    var after := Apply(w, Run(i, newToken, ok));
    forall j | 0 <= j < |after.threads|
      ensures ThreadOnce(after, j)
    {
      assert ThreadOnce(w, j);
    }
  }

  lemma CompleteOnce(w: World, i: nat, newToken: string, ok: bool)
    requires Inv(w) && Once(w) && i < |w.threads| && w.threads[i].CompleteRecord?
    ensures Once(Apply(w, Run(i, newToken, ok)))
  {
    var after := Apply(w, Run(i, newToken, ok));
    assert ThreadOnce(w, i);
    forall j | 0 <= j < |after.threads|
      ensures ThreadOnce(after, j)
    {
      assert ThreadOnce(w, j);
    }
  }

  lemma ReadOnce(w: World, i: nat, newToken: string, ok: bool)
    requires Once(w) && i < |w.threads| && w.threads[i].PollRead? && Apart(w, Run(i, newToken, ok))
    ensures Once(Apply(w, Run(i, newToken, ok)))
  {
    var after := Apply(w, Run(i, newToken, ok));
    forall j | 0 <= j < |after.threads|
      ensures ThreadOnce(after, j)
    {
      assert ThreadOnce(w, j);
    }
  }

  /** The token leaves its record, and no other poll has it. */
  lemma DeleteOnce(w: World, i: nat, newToken: string, ok: bool)
    requires Inv(w) && Once(w) && i < |w.threads| && w.threads[i].PollDelete? && Apart(w, Run(i, newToken, ok))
    ensures Once(Apply(w, Run(i, newToken, ok)))
  {
    var after := Apply(w, Run(i, newToken, ok));
    var id, token := w.threads[i].id, w.threads[i].token;
    assert ThreadOnce(w, i) && ThreadOk(w, w.threads[i]);
    forall j | 0 <= j < |after.threads|
      ensures ThreadOnce(after, j)
    {
      assert ThreadOnce(w, j) && ThreadOk(w, w.threads[j]);
    }
    forall other | other in after.records && after.records[other].Complete?
      ensures At(after, after.records[other].token, Stored)
    {
      assert Belongs(w, other, w.records[other].token);
    }
    forall k | 0 <= k < |after.handed|
      ensures At(after, after.handed[k].token, Returned(k))
    {
      if k < |w.handed| {
        assert At(w, w.handed[k].token, Returned(k));
      }
    }
  }

  lemma SpawnOnce(w: World, t: Thread)
    requires Once(w)
    ensures Once(Apply(w, Spawn(t)))
  {
    var after := Apply(w, Spawn(t));
    forall j | 0 <= j < |after.threads|
      ensures ThreadOnce(after, j)
    {
      assert j < |w.threads| ==> ThreadOnce(w, j);
    }
  }

  predicate MovesToken(t: Thread) {
    t.IssueToken? || t.CompleteRecord? || t.PollRead? || t.PollDelete?
  }

  lemma OtherMoves(w: World, i: nat, t: Thread, newToken: string, ok: bool)
    requires !MovesToken(t)
    ensures var (v, u) := Operate(w, i, t, newToken, ok);
            && v.stage == w.stage && v.handed == w.handed && v.issuedFor == w.issuedFor
            && (forall id | id in v.records && v.records[id].Complete? ::
                  id in w.records && w.records[id] == v.records[id])
            && !u.PollDelete? && !u.TrackToken?
            && (u.CompleteRecord? ==> t.TrackToken? && u.token == t.token)
  {
  }

  lemma OtherOnce(w: World, i: nat, newToken: string, ok: bool)
    requires Once(w) && i < |w.threads| && !MovesToken(w.threads[i])
    ensures Once(Apply(w, Run(i, newToken, ok)))
  {
    OtherMoves(w, i, w.threads[i], newToken, ok);
    SameStageOnce(w, Apply(w, Run(i, newToken, ok)), i);
  }

  /** A step that moves no token and gives thread i none. */
  lemma SameStageOnce(w: World, after: World, i: nat)
    requires Once(w) && i < |w.threads| == |after.threads|
    requires after.stage == w.stage && after.handed == w.handed && after.issuedFor == w.issuedFor
    requires forall id | id in after.records && after.records[id].Complete? ::
               id in w.records && w.records[id] == after.records[id]
    requires forall j | 0 <= j < |w.threads| && j != i :: after.threads[j] == w.threads[j]
    requires var u := after.threads[i];
             && !u.PollDelete? && !u.TrackToken?
             && (u.CompleteRecord? ==> w.threads[i].TrackToken? && u.token == w.threads[i].token)
    ensures Once(after)
  {
    forall j | 0 <= j < |after.threads|
      ensures ThreadOnce(after, j)
    {
      assert ThreadOnce(w, j);
    }
  }

  lemma RunStepOnce(w: World, i: nat, newToken: string, ok: bool)
    requires Inv(w) && Once(w) && Apart(w, Run(i, newToken, ok)) && i < |w.threads|
    ensures Once(Apply(w, Run(i, newToken, ok)))
  {
    match w.threads[i]
    case IssueToken(_, _) => IssueOnce(w, i, newToken, ok);
    case CompleteRecord(_, _, _) => CompleteOnce(w, i, newToken, ok);
    case PollRead(_) => ReadOnce(w, i, newToken, ok);
    case PollDelete(_, _) => DeleteOnce(w, i, newToken, ok);
    case _ => OtherOnce(w, i, newToken, ok);
  }

  lemma StepOnce(w: World, step: Step)
    requires Inv(w) && Once(w) && Apart(w, step)
    ensures Once(Apply(w, step))
  {
    match step
    case Tick(_) =>
      assert forall j | 0 <= j < |w.threads| :: ThreadOnce(w, j) ==> ThreadOnce(Apply(w, step), j);
    case Spawn(t) => SpawnOnce(w, t);
    case Run(i, newToken, ok) =>
      if i < |w.threads| {
        RunStepOnce(w, i, newToken, ok);
      }
  }

  predicate ApartTo(now: int, steps: seq<Step>, n: nat)
    requires n <= |steps|
  {
    forall i | 0 <= i < n :: Apart(RunTo(Initial(now), steps, i), steps[i])
  }

  lemma {:induction false} RunOnce(now: int, steps: seq<Step>, n: nat)
    requires n <= |steps| && ApartTo(now, steps, n)
    ensures Once(RunTo(Initial(now), steps, n))
  {
    if n > 0 {
      RunOnce(now, steps, n - 1);
      RunKeeps(now, steps, n - 1);
      assert Apart(RunTo(Initial(now), steps, n - 1), steps[n - 1]);
      StepOnce(RunTo(Initial(now), steps, n - 1), steps[n - 1]);
    }
  }

  /** While polls of one session stay apart and deletes succeed, no token is returned twice. */
  lemma TokensAreSingleUse(now: int, steps: seq<Step>, i: nat, j: nat)
    requires ApartTo(now, steps, |steps|)
    requires i < j < |RunTo(Initial(now), steps, |steps|).handed|
    ensures var handed := RunTo(Initial(now), steps, |steps|).handed;
            handed[i].token != handed[j].token
  {
    RunOnce(now, steps, |steps|);
    var w := RunTo(Initial(now), steps, |steps|);
    assert At(w, w.handed[i].token, Returned(i)) && At(w, w.handed[j].token, Returned(j));
  }

  // ----- Exactly when a token is returned once -----

  /** No two polls hold the same token, and none holds or returned one that was returned. */
  predicate Unshared(w: World) {
    && (forall i, j | 0 <= i < j < |w.threads| && w.threads[i].PollDelete? && w.threads[j].PollDelete? ::
          w.threads[i].token != w.threads[j].token)
    && (forall i, k | 0 <= i < |w.threads| && 0 <= k < |w.handed| :: !Holds(w.threads[i], w.handed[k].token))
    && NoneTwice(w.handed)
  }

  predicate NoneTwice(handed: seq<Handed>) {
    forall j, k | 0 <= j < k < |handed| :: handed[j].token != handed[k].token
  }

  /** A read shares exactly the tokens that are out. */
  lemma ReadSharesExactly(w: World, i: nat, newToken: string)
    requires i < |w.threads| && w.threads[i].PollRead?
    requires LiveRecord(w, w.threads[i].id) && w.records[w.threads[i].id].Complete?
    ensures Unshared(Apply(w, Run(i, newToken, true)))
       <==> Unshared(w) && !Out(w, w.records[w.threads[i].id].token)
  {
    var after, token := Apply(w, Run(i, newToken, true)), w.records[w.threads[i].id].token;
    assert Holds(after.threads[i], token);
    forall j | 0 <= j < |w.threads|
      ensures j != i ==> after.threads[j] == w.threads[j]
    {
    }
    if Unshared(w) && !Out(w, token) {
      forall j | 0 <= j < |w.threads|
        ensures !Holds(w.threads[j], token)
      {
      }
    }
    if Unshared(after) {
      UnsharedBefore(w, after, i);
      forall j | 0 <= j < |w.threads|
        ensures !Holds(w.threads[j], token)
      {
        assert j != i ==> after.threads[j] == w.threads[j];
      }
    }
  }

  lemma UnsharedBefore(w: World, after: World, i: nat)
    requires i < |w.threads| == |after.threads| && !w.threads[i].PollDelete? && after.handed == w.handed
    requires forall j | 0 <= j < |w.threads| && j != i :: after.threads[j] == w.threads[j]
    requires Unshared(after)
    ensures Unshared(w)
  {
    forall j, k | 0 <= j < |w.threads| && 0 <= k < |w.handed|
      ensures !Holds(w.threads[j], w.handed[k].token)
    {
      assert !Holds(after.threads[j], after.handed[k].token);
    }
  }

  /** The end of a poll moves its token. */
  lemma DeleteMoves(w: World, i: nat, newToken: string, ok: bool)
    requires i < |w.threads| && w.threads[i].PollDelete?
    ensures Unshared(Apply(w, Run(i, newToken, ok))) <==> Unshared(w)
  {
    var after, n := Apply(w, Run(i, newToken, ok)), |w.handed|;
    assert after.handed[n].token == w.threads[i].token && forall k | 0 <= k < n :: after.handed[k] == w.handed[k];
    assert forall j | 0 <= j < |w.threads| && j != i :: after.threads[j] == w.threads[j];
    if Unshared(after) {
      forall j, k | 0 <= j < |w.threads| && 0 <= k < n
        ensures !Holds(w.threads[j], w.handed[k].token)
      {
        assert !Holds(after.threads[j], after.handed[k].token);
      }
      forall j | 0 <= j < |w.threads| && j != i
        ensures !Holds(w.threads[j], w.threads[i].token)
      {
        assert !Holds(after.threads[j], after.handed[n].token);
      }
    }
    if Unshared(w) {
      forall j, k | 0 <= j < |after.threads| && 0 <= k <= n
        ensures !Holds(after.threads[j], after.handed[k].token)
      {
        assert k < n ==> !Holds(w.threads[j], w.handed[k].token);
      }
      forall k | 0 <= k < n
        ensures after.handed[k].token != after.handed[n].token
      {
        assert !Holds(w.threads[i], w.handed[k].token);
      }
    }
  }

  /** What polls hold and returned is as before. */
  lemma OthersShareNothing(w: World, after: World, i: nat)
    requires i < |w.threads| == |after.threads| && after.handed == w.handed
    requires !w.threads[i].PollDelete? && !after.threads[i].PollDelete?
    requires forall j | 0 <= j < |w.threads| && j != i :: after.threads[j] == w.threads[j]
    ensures Unshared(after) <==> Unshared(w)
  {
    if Unshared(after) {
      UnsharedBefore(w, after, i);
    }
    if Unshared(w) {
      UnsharedBefore(after, w, i);
    }
  }

  lemma OtherOperates(w: World, i: nat, t: Thread, newToken: string, ok: bool)
    requires !t.PollDelete?
    ensures var (v, u) := Operate(w, i, t, newToken, ok);
            && v.handed == w.handed
            && (u.PollDelete? ==> t.PollRead? && ok && LiveRecord(w, t.id) && w.records[t.id].Complete?)
            && (!u.PollDelete? ==> v.shared == w.shared)
  {
  }

  lemma RunStepShares(w: World, i: nat, newToken: string, ok: bool)
    requires i < |w.threads| && (Unshared(w) <==> w.shared == 0)
    ensures var after := Apply(w, Run(i, newToken, ok));
            Unshared(after) <==> after.shared == 0
  {
    if w.threads[i].PollDelete? {
      DeleteMoves(w, i, newToken, ok);
    } else {
      OtherOperates(w, i, w.threads[i], newToken, ok);
      if Operate(w, i, w.threads[i], newToken, ok).1.PollDelete? {
        ReadSharesExactly(w, i, newToken);
      } else {
        OthersShareNothing(w, Apply(w, Run(i, newToken, ok)), i);
      }
    }
  }

  lemma StepShares(w: World, step: Step)
    requires Unshared(w) <==> w.shared == 0
    ensures var after := Apply(w, step);
            Unshared(after) <==> after.shared == 0
  {
    match step
    case Tick(_) =>
    case Spawn(t) =>
      if Starts(t) {
        SpawnShares(w, t);
      }
    case Run(i, newToken, ok) =>
      if i < |w.threads| {
        RunStepShares(w, i, newToken, ok);
      }
  }

  lemma SpawnShares(w: World, t: Thread)
    requires Starts(t)
    ensures Unshared(Apply(w, Spawn(t))) <==> Unshared(w)
  {
    var after := Apply(w, Spawn(t));
    assert forall j | 0 <= j < |w.threads| :: after.threads[j] == w.threads[j];
    if Unshared(after) {
      forall j, k | 0 <= j < |w.threads| && 0 <= k < |w.handed|
        ensures !Holds(w.threads[j], w.handed[k].token)
      {
        assert !Holds(after.threads[j], after.handed[k].token);
      }
    }
  }

  lemma {:induction false} RunShares(w: World, steps: seq<Step>, n: nat)
    requires n <= |steps| && (Unshared(w) <==> w.shared == 0)
    ensures var t := RunTo(w, steps, n);
            Unshared(t) <==> t.shared == 0
  {
    if n > 0 {
      RunShares(w, steps, n - 1);
      StepShares(RunTo(w, steps, n - 1), steps[n - 1]);
    }
  }

  /** In every run, when no poll is between its calls, no token has been returned twice
      exactly when no poll ever read a token that another held or had returned. */
  lemma SingleUseExactly(now: int, steps: seq<Step>)
    requires forall t | t in RunTo(Initial(now), steps, |steps|).threads :: !t.PollDelete?
    ensures var w := RunTo(Initial(now), steps, |steps|);
            NoneTwice(w.handed) <==> w.shared == 0
  {
    RunShares(Initial(now), steps, |steps|);
    var w := RunTo(Initial(now), steps, |steps|);
    assert forall i | 0 <= i < |w.threads| :: w.threads[i] in w.threads;
  }

  // ----- Two runs that return a token twice -----

  /** One desktop login up to its completion, and two polls about to start. */
  const LOGIN: seq<Step> := [
    Spawn(InitStore("s", "st")), Run(0, "", true), Run(0, "", true),
    Spawn(FindIndex("st")), Run(1, "", true), Run(1, "", true), Run(1, "t", true), Run(1, "", true), Run(1, "", true),
    Spawn(PollRead("s")), Spawn(PollRead("s"))]

  /** Both polls read before either deletes. */
  const OVERLAP: seq<Step> := [Run(2, "", true), Run(3, "", true), Run(2, "", true), Run(3, "", true)]

  /** The second poll starts when the first is over, but the delete of the first failed. */
  const FAILED_DELETE: seq<Step> := [Run(2, "", true), Run(2, "", false), Run(3, "", true), Run(3, "", true)]

  lemma {:induction false} RunSplit(w: World, a: seq<Step>, b: seq<Step>, n: nat)
    requires n <= |b|
    ensures RunTo(w, a + b, |a| + n) == RunTo(RunTo(w, a, |a|), b, n)
  {
    if n == 0 {
      RunPrefix(w, a, b, |a|);
    } else {
      RunSplit(w, a, b, n - 1);
      assert (a + b)[|a| + n - 1] == b[n - 1];
    }
  }

  lemma {:induction false} RunPrefix(w: World, a: seq<Step>, b: seq<Step>, n: nat)
    requires n <= |a|
    ensures RunTo(w, a + b, n) == RunTo(w, a, n)
  {
    if n > 0 {
      RunPrefix(w, a, b, n - 1);
    }
  }

  /** The session is complete with token "t", which nobody has read. */
  predicate Ready(w: World) {
    && LiveRecord(w, "s") && w.records["s"].Complete? && w.records["s"].token == "t"
    && w.handed == [] && w.shared == 0
    && |w.threads| == 4 && w.threads[0] == Over && w.threads[1] == DropIndex("st")
    && w.threads[2] == PollRead("s") && w.threads[3] == PollRead("s")
  }

  lemma LoginInitiated(now: int)
    ensures var w := RunTo(Initial(now), LOGIN, 3);
            && w.threads == [Over] && LiveRecord(w, "s") && LiveIndex(w, "st") && w.index["st"].sessionID == "s"
            && w.issuedFor == map[] && w.tracked == {} && w.handed == [] && w.shared == 0
  {
    assert RunTo(Initial(now), LOGIN, 1).threads == [LOGIN[0].thread];
    assert RunTo(Initial(now), LOGIN, 2).threads == [InitIndex("s", "st")];
  }

  lemma LoginFound(now: int)
    ensures var w := RunTo(Initial(now), LOGIN, 6);
            && w.threads == [Over, IssueToken("s", "st")]
            && w.issuedFor == map[] && w.tracked == {} && w.handed == [] && w.shared == 0
  {
    LoginInitiated(now);
    assert RunTo(Initial(now), LOGIN, 4).threads == [Over, FindIndex("st")];
    assert RunTo(Initial(now), LOGIN, 5).threads == [Over, FindRecord("s", "st")];
  }

  lemma LoginCompleted(now: int)
    ensures var w := RunTo(Initial(now), LOGIN, 9);
            && w.threads == [Over, DropIndex("st")] && LiveRecord(w, "s")
            && w.records["s"].Complete? && w.records["s"].token == "t" && w.handed == [] && w.shared == 0
  {
    LoginFound(now);
    assert RunTo(Initial(now), LOGIN, 7).threads == [Over, TrackToken("s", "st", "t")];
    assert RunTo(Initial(now), LOGIN, 8).threads == [Over, CompleteRecord("s", "st", "t")];
  }

  lemma LoginReady(now: int)
    ensures Ready(RunTo(Initial(now), LOGIN, 11))
  {
    LoginCompleted(now);
    assert RunTo(Initial(now), LOGIN, 10).threads == [Over, DropIndex("st"), PollRead("s")];
  }

  predicate ReturnedTwice(w: World) {
    w.handed == [Handed("s", "t"), Handed("s", "t")] && w.shared == 1
  }

  lemma PollReads(w: World, i: nat, id: string)
    requires i < |w.threads| && w.threads[i] == PollRead(id) && LiveRecord(w, id) && w.records[id].Complete?
    ensures var token := w.records[id].token;
            Apply(w, Run(i, "", true)) == w.(threads := w.threads[i := PollDelete(id, token)],
                                             shared := w.shared + if Out(w, token) then 1 else 0)
  {
  }

  lemma PollReturns(w: World, i: nat, id: string, token: string, ok: bool)
    requires i < |w.threads| && w.threads[i] == PollDelete(id, token)
    ensures var after := Apply(w, Run(i, "", ok));
            && after.threads == w.threads[i := Over] && after.shared == w.shared && after.now == w.now
            && after.handed == w.handed + [Handed(id, token)] && (!ok ==> after.records == w.records)
  {
  }

  lemma RunOfFour(w: World, steps: seq<Step>)
    requires |steps| == 4
    ensures RunTo(w, steps, 4) == Apply(Apply(Apply(Apply(w, steps[0]), steps[1]), steps[2]), steps[3])
  {
    assert RunTo(w, steps, 1) == Apply(RunTo(w, steps, 0), steps[0]);
    assert RunTo(w, steps, 3) == Apply(RunTo(w, steps, 2), steps[2]);
  }

  lemma OverlappingPollsShare(w: World)
    requires Ready(w)
    ensures ReturnedTwice(Apply(Apply(Apply(Apply(w, Run(2, "", true)), Run(3, "", true)), Run(2, "", true)),
                                Run(3, "", true)))
  {
    PollReads(w, 2, "s");
    var w1 := Apply(w, Run(2, "", true));
    assert Holds(w1.threads[2], "t");
    PollReads(w1, 3, "s");
    var w2 := Apply(w1, Run(3, "", true));
    PollReturns(w2, 2, "s", "t", true);
    PollReturns(Apply(w2, Run(2, "", true)), 3, "s", "t", true);
  }

  lemma FailedDeleteShares(w: World)
    requires Ready(w)
    ensures ReturnedTwice(Apply(Apply(Apply(Apply(w, Run(2, "", true)), Run(2, "", false)), Run(3, "", true)),
                                Run(3, "", true)))
  {
    PollReads(w, 2, "s");
    var w1 := Apply(w, Run(2, "", true));
    PollReturns(w1, 2, "s", "t", false);
    var w2 := Apply(w1, Run(2, "", false));
    assert w2.handed[0].token == "t";
    PollReads(w2, 3, "s");
    PollReturns(Apply(w2, Run(3, "", true)), 3, "s", "t", true);
  }

  /** The read and the delete of a poll are two calls: polls that overlap return the
      same token. */
  lemma OverlappingPollsShareToken(now: int)
    ensures ReturnedTwice(RunTo(Initial(now), LOGIN + OVERLAP, |LOGIN + OVERLAP|))
  {
    LoginReady(now);
    OverlappingPollsShare(RunTo(Initial(now), LOGIN, 11));
    RunOfFour(RunTo(Initial(now), LOGIN, 11), OVERLAP);
    RunSplit(Initial(now), LOGIN, OVERLAP, 4);
  }

  /** A failed delete is logged and the token returned all the same: the next poll
      returns it again. */
  lemma FailedDeleteSharesToken(now: int)
    ensures ReturnedTwice(RunTo(Initial(now), LOGIN + FAILED_DELETE, |LOGIN + FAILED_DELETE|))
  {
    LoginReady(now);
    FailedDeleteShares(RunTo(Initial(now), LOGIN, 11));
    RunOfFour(RunTo(Initial(now), LOGIN, 11), FAILED_DELETE);
    RunSplit(Initial(now), LOGIN, FAILED_DELETE, 4);
  }

  // ----- A run that returns an untracked token -----

  /** From the tracking of "t" on: its SADD fails, the session is completed and polled. */
  const FAILED_TRACKING: seq<Step> :=
    [Run(1, "", false), Run(1, "", true), Spawn(PollRead("s")), Run(2, "", true), Run(2, "", true)]

  lemma LoginIssued(now: int)
    ensures var w := RunTo(Initial(now), LOGIN[..7], 7);
            && w.threads == [Over, TrackToken("s", "st", "t")] && w.tracked == {} && w.handed == []
  {
    LoginFound(now);
    assert RunTo(Initial(now), LOGIN, 7).threads == [Over, TrackToken("s", "st", "t")];
    assert LOGIN[..7] + LOGIN[7..] == LOGIN;
    RunPrefix(Initial(now), LOGIN[..7], LOGIN[7..], 7);
  }

  lemma UntrackedIsCompleted(w: World)
    requires w.threads == [Over, TrackToken("s", "st", "t")] && w.tracked == {} && w.handed == []
    ensures var t := RunTo(w, FAILED_TRACKING, 3);
            && t.threads == [Over, DropIndex("st"), PollRead("s")] && t.tracked == {} && t.handed == []
            && LiveRecord(t, "s") && t.records["s"].Complete? && t.records["s"].token == "t"
  {
    assert RunTo(w, FAILED_TRACKING, 1).threads == [Over, CompleteRecord("s", "st", "t")];
    assert RunTo(w, FAILED_TRACKING, 2).threads == [Over, DropIndex("st")];
  }

  lemma UntrackedIsPolled(w: World)
    requires w.threads == [Over, TrackToken("s", "st", "t")] && w.tracked == {} && w.handed == []
    ensures var end := RunTo(w, FAILED_TRACKING, 5);
            end.handed == [Handed("s", "t")] && end.tracked == {}
  {
    UntrackedIsCompleted(w);
    var t := RunTo(w, FAILED_TRACKING, 3);
    PollReads(t, 2, "s");
    assert RunTo(w, FAILED_TRACKING, 4) == Apply(t, Run(2, "", true));
  }

  /** After a failed SADD the callback goes on, and the poll returns a token that no
      mass revocation will find. */
  lemma FailedTrackingIsReturned(now: int)
    ensures var w := RunTo(Initial(now), LOGIN[..7] + FAILED_TRACKING, 12);
            w.handed == [Handed("s", "t")] && "t" !in w.tracked
  {
    LoginIssued(now);
    UntrackedIsPolled(RunTo(Initial(now), LOGIN[..7], 7));
    RunSplit(Initial(now), LOGIN[..7], FAILED_TRACKING, 5);
  }
}
