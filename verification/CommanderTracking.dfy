/** Token tracking: the Redis calls of login, refresh, logout and mass revocation
    as interleaved steps of one handler per commander, any of which may stop
    between two calls: internal/httpapi/commander_auth.go,
    internal/httpapi/commander_client_auth.go,
    internal/httpapi/commander_session.go, internal/auth/commander_jwt.go. */
module CommanderTracking {
  import opened Basics
  import opened RedisSets
  import opened CommanderSessions

  datatype Token = Token(fid: string, exp: int)

  /** What follows a RevokeJTI: the rotation of a refresh, the untracking of a
      logout, or the rest of a mass revocation. */
  datatype FollowUp = Rotate(next: string) | Forget | Rest(todo: seq<string>)

  /** The next call of a handler. */
  datatype Handler =
    | Idle
    | Track(jti: string)
    | Renew(jti: string)
    | Deliver(jti: string)
    | RevokeAdd(jti: string, until: int, follow: FollowUp)
    | RevokeDate(jti: string, until: int, follow: FollowUp)
    | TrackNext(prior: string, next: string)
    | UntrackOld(prior: string, next: string)
    | Untrack(jti: string)
    | Drop

  /** `delivered` are the tokens that reached a client. */
  datatype State = State(
    now: int,
    tokens: map<string, Token>,
    delivered: set<string>,
    tracking: map<string, RSet>,
    revoked: RSet,
    handlers: map<string, Handler>)

  datatype Step =
    | Tick(d: nat)
    | BeginLogin(fid: string, jti: string, exp: int)
    | BeginRefresh(fid: string, jti: string, next: string, exp: int)
    | BeginLogout(fid: string, jti: string)
    | BeginRevokeAll(fid: string, order: seq<string>)
    | Continue(fid: string, ok: bool)
    | Crash(fid: string)

  function Items(s: seq<string>): set<string> {
    set i | 0 <= i < |s| :: s[i]
  }

  function TrackingSet(s: State, fid: string): RSet {
    if fid in s.tracking then s.tracking[fid] else GONE
  }

  function Members(s: State, fid: string): set<string> {
    Seen(TrackingSet(s, fid), s.now).members
  }

  function HandlerOf(s: State, fid: string): Handler {
    if fid in s.handlers then s.handlers[fid] else Idle
  }

  predicate Unexpired(s: State, jti: string) {
    jti in s.tokens && s.now < s.tokens[jti].exp
  }

  /** Validate on a token a client holds. */
  predicate Accepts(s: State, jti: string) {
    jti in s.delivered && Unexpired(s, jti) && jti !in Seen(s.revoked, s.now).members
  }

  /** The middleware on a token the server issued and a client holds: it is let through
      exactly when Redis answers and the state accepts it. */
  method WithCommanderAuth(redis: SessionRedis, token: Presented, issuer: string, now: int, reachable: bool,
                           ghost s: State)
    returns (accepted: bool)
    requires redis.revoked == s.revoked && now == s.now
    requires token.jti != "" && token.jti in s.delivered && token.jti in s.tokens
    requires token.alg == "RS256" && token.signed && token.issuer == issuer && token.exp == s.tokens[token.jti].exp
    ensures accepted <==> reachable && Accepts(s, token.jti)
  {
    accepted := redis.Validate(token, issuer, now, reachable);
  }

  function Turned(s: State, fid: string, h: Handler): State {
    s.(handlers := s.handlers[fid := h])
  }

  function Issued(s: State, fid: string, jti: string, exp: int): State {
    s.(tokens := s.tokens[jti := Token(fid, exp)])
  }

  function Retracked(s: State, fid: string, keys: RSet): State {
    s.(tracking := s.tracking[fid := keys])
  }

  function Next(jti: string, until: int, follow: FollowUp): Handler {
    match follow
    case Rotate(next) => TrackNext(jti, next)
    case Forget => Untrack(jti)
    case Rest(todo) => FromTodo(todo, until)
  }

  function FromTodo(todo: seq<string>, until: int): Handler {
    if todo == [] then Drop else RevokeAdd(todo[0], until, Rest(todo[1..]))
  }

  /** The next call of the handler of fid. Any call may fail, and the handler goes on;
      a RevokeJTI whose SADD failed leaves out its EXPIREAT. */
  function Advance(s: State, fid: string, ok: bool): State {
    var keys := TrackingSet(s, fid);
    match HandlerOf(s, fid)
    case Idle => s
    case Track(jti) => Turned(if ok then Retracked(s, fid, Add(keys, jti, s.now)) else s, fid, Renew(jti))
    case Renew(jti) =>
      Turned(if ok then Retracked(s, fid, ExpireAt(keys, s.now + DAY, s.now)) else s, fid, Deliver(jti))
    case Deliver(jti) => Turned(s.(delivered := s.delivered + {jti}), fid, Idle)
    case RevokeAdd(jti, until, follow) =>
      if ok then Turned(s.(revoked := Add(s.revoked, jti, s.now)), fid, RevokeDate(jti, until, follow))
      else Turned(s, fid, Next(jti, until, follow))
    case RevokeDate(jti, until, follow) =>
      Turned(if ok then s.(revoked := ExpireAt(s.revoked, until, s.now)) else s, fid, Next(jti, until, follow))
    case TrackNext(prior, next) =>
      Turned(if ok then Retracked(s, fid, Add(keys, next, s.now)) else s, fid, UntrackOld(prior, next))
    case UntrackOld(prior, next) =>
      Turned(if ok then Retracked(s, fid, Remove(keys, prior, s.now)) else s, fid, Renew(next))
    case Untrack(jti) => Turned(if ok then Retracked(s, fid, Remove(keys, jti, s.now)) else s, fid, Idle)
    case Drop => Turned(if ok then Retracked(s, fid, GONE) else s, fid, Idle)
  }

  /** A step that is not enabled changes nothing: the handler of the commander is
      busy, the jti is not new, or the token is refused. */
  function Apply(s: State, step: Step): State {
    match step
    case Tick(d) => s.(now := s.now + d)
    case BeginLogin(fid, jti, exp) =>
      if !HandlerOf(s, fid).Idle? || jti in s.tokens then s else Turned(Issued(s, fid, jti, exp), fid, Track(jti))
    case BeginRefresh(fid, jti, next, exp) =>
      if !HandlerOf(s, fid).Idle? || next in s.tokens || !Accepts(s, jti) || s.tokens[jti].fid != fid then s
      else Turned(Issued(s, fid, next, exp), fid, RevokeAdd(jti, s.tokens[jti].exp, Rotate(next)))
    case BeginLogout(fid, jti) =>
      if !HandlerOf(s, fid).Idle? || !Accepts(s, jti) || s.tokens[jti].fid != fid then s
      else Turned(s, fid, RevokeAdd(jti, s.tokens[jti].exp, Forget))
    case BeginRevokeAll(fid, order) =>
      if !HandlerOf(s, fid).Idle? || Items(order) != Members(s, fid) then s
      else Turned(s, fid, FromTodo(order, s.now + DAY))
    case Continue(fid, ok) => Advance(s, fid, ok)
    case Crash(fid) => Turned(s, fid, Idle)
  }

  /** A handler begins only where none of the commander's is under way: a login and a
      refresh with a jti that is new, a refresh and a logout with a token of the commander
      that is accepted, a mass revocation with what the set has. */
  lemma BeginsExactly(s: State, fid: string, jti: string, next: string, exp: int, order: seq<string>)
    ensures var idle := HandlerOf(s, fid) == Idle;
            var own := Accepts(s, jti) && s.tokens[jti].fid == fid;
            && Apply(s, BeginLogin(fid, jti, exp))
               == (if idle && jti !in s.tokens then
                     s.(tokens := s.tokens[jti := Token(fid, exp)], handlers := s.handlers[fid := Track(jti)])
                   else s)
            && Apply(s, BeginRefresh(fid, jti, next, exp))
               == (if idle && own && next !in s.tokens then
                     s.(tokens := s.tokens[next := Token(fid, exp)],
                        handlers := s.handlers[fid := RevokeAdd(jti, s.tokens[jti].exp, Rotate(next))])
                   else s)
            && Apply(s, BeginLogout(fid, jti))
               == (if idle && own then s.(handlers := s.handlers[fid := RevokeAdd(jti, s.tokens[jti].exp, Forget)])
                   else s)
            && (!idle || Items(order) != Members(s, fid) ==> Apply(s, BeginRevokeAll(fid, order)) == s)
            && (idle && Items(order) == Members(s, fid) ==>
                  Apply(s, BeginRevokeAll(fid, order))
                  == s.(handlers := s.handlers[fid :=
                          if order == [] then Drop else RevokeAdd(order[0], s.now + 86400, Rest(order[1..]))]))
  {
  }

  /** A call that fails leaves the sets alone, and the handler goes on as if it had not;
      only an SADD of a revocation takes its EXPIREAT with it. A stop and a wait change
      nothing else. */
  lemma FailedCallsGoOn(s: State, fid: string, d: nat)
    ensures var t, h := Advance(s, fid, false), HandlerOf(s, fid);
            && t.now == s.now && t.tokens == s.tokens && t.tracking == s.tracking && t.revoked == s.revoked
            && t.delivered == (if h.Deliver? then s.delivered + {h.jti} else s.delivered)
            && HandlerOf(t, fid) == match h
                                    case Track(jti) => Renew(jti)
                                    case Renew(jti) => Deliver(jti)
                                    case RevokeAdd(jti, _, Rotate(next)) => TrackNext(jti, next)
                                    case RevokeAdd(jti, _, Forget) => Untrack(jti)
                                    case RevokeAdd(_, until, Rest(todo)) => FromTodo(todo, until)
                                    case RevokeDate(jti, _, Rotate(next)) => TrackNext(jti, next)
                                    case RevokeDate(jti, _, Forget) => Untrack(jti)
                                    case RevokeDate(_, until, Rest(todo)) => FromTodo(todo, until)
                                    case TrackNext(prior, next) => UntrackOld(prior, next)
                                    case UntrackOld(_, next) => Renew(next)
                                    case _ => Idle
    ensures forall g | g != fid :: HandlerOf(Advance(s, fid, false), g) == HandlerOf(s, g)
    ensures Apply(s, Tick(d)) == s.(now := s.now + d)
    ensures Apply(s, Crash(fid)) == s.(handlers := Apply(s, Crash(fid)).handlers)
    ensures HandlerOf(Apply(s, Crash(fid)), fid) == Idle
    ensures forall g | g != fid :: HandlerOf(Apply(s, Crash(fid)), g) == HandlerOf(s, g)
  {
  }

  // ----- What the code relies on -----

  /** The token is in its commander's set, which outlives it. */
  predicate Tracked(s: State, jti: string)
    requires jti in s.tokens
  {
    HoldsUntil(TrackingSet(s, s.tokens[jti].fid), jti, s.tokens[jti].exp, s.now)
  }

  /** The token is revoked for the rest of its life. */
  predicate Covered(s: State, jti: string)
    requires jti in s.tokens
  {
    && jti in Seen(s.revoked, s.now).members
    && s.revoked.deadline.Some? && s.tokens[jti].exp <= s.revoked.deadline.value
  }

  /** Unexpired tokens in the hands of clients can be found or are revoked for good. */
  predicate Safe(s: State, jti: string) {
    jti in s.delivered && Unexpired(s, jti) ==> Tracked(s, jti) || Covered(s, jti)
  }

  /** The deadline spares every token that is revoked for good. */
  predicate Spares(s: State, until: int) {
    forall j | j in s.delivered && Unexpired(s, j) && Covered(s, j) :: s.tokens[j].exp <= until
  }

  /** The calls whose failure the code does not make up for. */
  predicate Needed(h: Handler) {
    h.Track? || h.Renew? || h.TrackNext? || h.RevokeAdd? || h.RevokeDate?
  }

  /** Token lives of at most a day, SADD, EXPIRE and EXPIREAT that succeed and find
      what was put there, and revocation deadlines that spare earlier revocations. */
  predicate Sound(s: State, step: Step) {
    match step
    case BeginLogin(_, _, exp) => exp <= s.now + DAY
    case BeginRefresh(_, _, _, exp) => exp <= s.now + DAY
    case Continue(fid, ok) =>
      var h := HandlerOf(s, fid);
      && (Needed(h) ==> ok)
      && (h.Renew? ==> Members(s, fid) != {})
      && (h.RevokeDate? ==> h.jti in Seen(s.revoked, s.now).members && Spares(s, h.until))
    case _ => true
  }

  /** Deadlines that never go backwards spare everything. */
  lemma NeverBackwardsSpares(s: State, until: int)
    requires Seen(s.revoked, s.now).deadline.Some? ==> Seen(s.revoked, s.now).deadline.value <= until
    ensures Spares(s, until)
  {
  }

  // ----- The invariant -----

  predicate Owns(s: State, fid: string, jti: string) {
    jti in s.tokens && s.tokens[jti].fid == fid
  }

  predicate Settled(s: State, jti: string) {
    jti in s.delivered && (Unexpired(s, jti) ==> Covered(s, jti))
  }

  predicate StillThere(s: State, fid: string, jti: string) {
    Owns(s, fid, jti) && (Members(s, fid) == {} || jti in Members(s, fid))
  }

  /** Tokens of fid a client can use and a mass revocation must still find. */
  predicate Exposed(s: State, fid: string, jti: string) {
    jti in s.delivered && Unexpired(s, jti) && s.tokens[jti].fid == fid && !Covered(s, jti)
  }

  /** Every exposed token is still to be revoked, by a deadline that outlives it. */
  ghost predicate Pending(s: State, fid: string, todo: set<string>, until: int) {
    forall j | Exposed(s, fid, j) :: j in todo && s.tokens[j].exp <= until
  }

  ghost predicate RevokeOk(s: State, fid: string, jti: string, until: int, follow: FollowUp) {
    match follow
    case Rotate(next) =>
      jti in s.delivered && Owns(s, fid, jti) && s.tokens[jti].exp <= until && Owns(s, fid, next) && next != jti
    case Forget => jti in s.delivered && Owns(s, fid, jti) && s.tokens[jti].exp <= until
    case Rest(todo) => Pending(s, fid, {jti} + Items(todo), until)
  }

  ghost predicate HandlerOk(s: State, fid: string) {
    match HandlerOf(s, fid)
    case Idle => true
    case Track(jti) => Owns(s, fid, jti)
    case Renew(jti) => StillThere(s, fid, jti)
    case Deliver(jti) => Owns(s, fid, jti) && (Unexpired(s, jti) ==> Tracked(s, jti))
    case RevokeAdd(jti, until, follow) => RevokeOk(s, fid, jti, until, follow)
    case RevokeDate(jti, until, follow) => RevokeOk(s, fid, jti, until, follow)
    case TrackNext(prior, next) => Settled(s, prior) && Owns(s, fid, next) && next != prior
    case UntrackOld(prior, next) => Settled(s, prior) && StillThere(s, fid, next) && next != prior
    case Untrack(jti) => Settled(s, jti)
    case Drop => Pending(s, fid, {}, s.now)
  }

  ghost predicate Inv(s: State) {
    && (forall j | j in s.tokens :: s.tokens[j].exp <= s.now + DAY)
    && (forall j | j in s.delivered :: j in s.tokens)
    && (forall j | j in s.delivered :: Safe(s, j))
    && (forall fid | fid in s.handlers :: HandlerOk(s, fid))
  }

  // ----- Every step keeps it -----

  /** A step of the handler of fid, as the others see it. */
  ghost predicate Steady(s: State, t: State, fid: string) {
    && t.now == s.now
    && (forall j | j in s.tokens :: j in t.tokens && t.tokens[j] == s.tokens[j])
    && s.delivered <= t.delivered
    && (forall j | j in t.delivered && j !in s.delivered :: j in t.tokens && t.tokens[j].fid == fid)
    && (forall g | g != fid :: TrackingSet(t, g) == TrackingSet(s, g) && HandlerOf(t, g) == HandlerOf(s, g))
    && (forall j | j in s.delivered && Unexpired(s, j) && Covered(s, j) :: Covered(t, j))
  }

  lemma OtherHandlerOk(s: State, t: State, fid: string, g: string)
    requires Steady(s, t, fid) && g != fid && HandlerOk(s, g)
    requires forall j | j in s.delivered :: j in s.tokens
    ensures HandlerOk(t, g)
  {
    assert Members(t, g) == Members(s, g);
    forall j | Exposed(t, g, j)
      ensures Exposed(s, g, j) && s.tokens[j] == t.tokens[j]
    {
    }
  }

  lemma OtherSafe(s: State, t: State, fid: string, j: string)
    requires Steady(s, t, fid) && j in s.delivered && j in s.tokens && s.tokens[j].fid != fid && Safe(s, j)
    ensures Safe(t, j)
  {
  }

  lemma Combine(s: State, t: State, fid: string)
    requires Inv(s) && Steady(s, t, fid) && HandlerOk(t, fid)
    requires forall j | j in t.tokens :: t.tokens[j].exp <= t.now + DAY
    requires forall j | j in t.delivered && j in t.tokens && t.tokens[j].fid == fid :: Safe(t, j)
    requires forall g | g in t.handlers :: g == fid || g in s.handlers
    ensures Inv(t)
  {
    forall j | j in t.delivered
      ensures j in t.tokens && Safe(t, j)
    {
      if j in s.delivered && s.tokens[j].fid != fid {
        OtherSafe(s, t, fid, j);
      }
    }
    forall g | g in t.handlers
      ensures HandlerOk(t, g)
    {
      if g != fid {
        OtherHandlerOk(s, t, fid, g);
      }
    }
  }

  lemma TickKeeps(s: State, d: nat)
    requires Inv(s)
    ensures Inv(Apply(s, Tick(d)))
  {
    var t := Apply(s, Tick(d));
    forall j | j in s.tokens && Unexpired(t, j)
      ensures Tracked(s, j) ==> Tracked(t, j)
      ensures Covered(s, j) ==> Covered(t, j)
    {
    }
    forall j | j in t.delivered
      ensures Safe(t, j)
    {
      assert Safe(s, j);
    }
    forall fid | fid in t.handlers
      ensures HandlerOk(t, fid)
    {
      TickKeepsHandler(s, t, fid);
    }
  }

  lemma TickKeepsHandler(s: State, t: State, fid: string)
    requires HandlerOk(s, fid) && t.now >= s.now && t == s.(now := t.now)
    requires forall j | j in s.tokens && Unexpired(t, j) && Covered(s, j) :: Covered(t, j)
    requires forall j | j in s.tokens && Unexpired(t, j) && Tracked(s, j) :: Tracked(t, j)
    ensures HandlerOk(t, fid)
  {
    assert HandlerOf(t, fid) == HandlerOf(s, fid);
    assert Members(t, fid) == {} || Members(t, fid) == Members(s, fid);
    forall j | Exposed(t, fid, j)
      ensures Exposed(s, fid, j)
    {
    }
  }

  lemma CrashKeeps(s: State, fid: string)
    requires Inv(s)
    ensures Inv(Apply(s, Crash(fid)))
  {
    Combine(s, Apply(s, Crash(fid)), fid);
  }

  lemma BeginKeeps(s: State, step: Step)
    requires Inv(s) && Sound(s, step)
    requires step.BeginLogin? || step.BeginRefresh? || step.BeginLogout? || step.BeginRevokeAll?
    ensures Inv(Apply(s, step))
  {
    var t := Apply(s, step);
    if t != s {
      BeginIsSteady(s, step);
      BeginKeepsHandler(s, step);
      forall j | j in t.delivered && t.tokens[j].fid == step.fid
        ensures Safe(t, j)
      {
        assert Safe(s, j);
      }
      Combine(s, t, step.fid);
    }
  }

  lemma BeginIsSteady(s: State, step: Step)
    requires Inv(s) && (step.BeginLogin? || step.BeginRefresh? || step.BeginLogout? || step.BeginRevokeAll?)
    ensures Steady(s, Apply(s, step), step.fid) && Apply(s, step).delivered == s.delivered
  {
  }

  lemma BeginKeepsHandler(s: State, step: Step)
    requires Inv(s) && Apply(s, step) != s
    requires step.BeginLogin? || step.BeginRefresh? || step.BeginLogout? || step.BeginRevokeAll?
    ensures HandlerOk(Apply(s, step), step.fid)
  {
    if step.BeginRevokeAll? {
      RevokeAllBegins(s, step.fid, step.order);
      if step.order != [] {
        ItemsSplit(step.order);
      }
    }
  }

  /** SMEMBERS finds every exposed token, and a day from now outlives them all. */
  lemma RevokeAllBegins(s: State, fid: string, order: seq<string>)
    requires Inv(s) && Items(order) == Members(s, fid)
    ensures Pending(s, fid, Items(order), s.now + DAY)
  {
    forall j | Exposed(s, fid, j)
      ensures j in Items(order) && s.tokens[j].exp <= s.now + DAY
    {
      assert Safe(s, j);
    }
  }

  /** Each call leaves the other commanders' sets and handlers alone and, when
      sound, every lasting revocation. */
  lemma AdvanceIsSteady(s: State, fid: string, ok: bool)
    requires Inv(s) && Sound(s, Continue(fid, ok))
    ensures Steady(s, Advance(s, fid, ok), fid) && Advance(s, fid, ok).tokens == s.tokens
    ensures !HandlerOf(s, fid).Deliver? ==> Advance(s, fid, ok).delivered == s.delivered
  {
    var h := HandlerOf(s, fid);
    if fid in s.handlers {
      assert HandlerOk(s, fid);
    }
    if h.RevokeAdd? || h.RevokeDate? {
      RevokingIsSteady(s, fid, ok);
    }
  }

  lemma RevokingIsSteady(s: State, fid: string, ok: bool)
    requires Inv(s) && Sound(s, Continue(fid, ok)) && (HandlerOf(s, fid).RevokeAdd? || HandlerOf(s, fid).RevokeDate?)
    ensures Steady(s, Advance(s, fid, ok), fid) && Advance(s, fid, ok).tokens == s.tokens
    ensures Advance(s, fid, ok).delivered == s.delivered
  {
    forall j | j in s.delivered && Unexpired(s, j) && Covered(s, j)
      ensures Covered(Advance(s, fid, ok), j)
    {
    }
  }

  /** The calls that change only the tracking set of fid. */
  predicate OnTracking(h: Handler) {
    h.Track? || h.Renew? || h.TrackNext? || h.UntrackOld? || h.Untrack? || h.Drop?
  }

  lemma TrackingKeeps(s: State, fid: string, ok: bool)
    requires Inv(s) && OnTracking(HandlerOf(s, fid)) && Sound(s, Continue(fid, ok))
    ensures Inv(Advance(s, fid, ok))
  {
    var t := Advance(s, fid, ok);
    forall j | j in s.delivered && s.tokens[j].fid == fid
      ensures Safe(t, j)
    {
      assert Safe(s, j) && HandlerOk(s, fid);
      TrackingKeepsSafe(s, fid, ok, j);
    }
    TrackingKeepsHandler(s, fid, ok);
    AdvanceIsSteady(s, fid, ok);
    Combine(s, t, fid);
  }

  lemma TrackingKeepsSafe(s: State, fid: string, ok: bool, j: string)
    requires OnTracking(HandlerOf(s, fid)) && HandlerOk(s, fid) && Sound(s, Continue(fid, ok))
    requires j in s.delivered && Owns(s, fid, j) && Safe(s, j) && s.tokens[j].exp <= s.now + DAY
    ensures Safe(Advance(s, fid, ok), j)
  {
    if HandlerOf(s, fid).Drop? {
      assert !Exposed(s, fid, j);
    }
  }

  lemma TrackingKeepsHandler(s: State, fid: string, ok: bool)
    requires OnTracking(HandlerOf(s, fid)) && HandlerOk(s, fid) && Sound(s, Continue(fid, ok))
    requires forall j | j in s.tokens :: s.tokens[j].exp <= s.now + DAY
    ensures HandlerOk(Advance(s, fid, ok), fid)
  {
    var h, t := HandlerOf(s, fid), Advance(s, fid, ok);
    if h.UntrackOld? && ok {
      assert Members(t, fid) == Members(s, fid) - {h.prior};
    }
  }

  lemma DeliverKeeps(s: State, fid: string, ok: bool)
    requires Inv(s) && HandlerOf(s, fid).Deliver?
    ensures Inv(Advance(s, fid, ok))
  {
    var t := Advance(s, fid, ok);
    assert HandlerOk(s, fid);
    forall j | j in t.delivered && j in t.tokens && t.tokens[j].fid == fid
      ensures Safe(t, j)
    {
      assert j in s.delivered ==> Safe(s, j);
    }
    AdvanceIsSteady(s, fid, ok);
    Combine(s, t, fid);
  }

  lemma RevokeAddKeeps(s: State, fid: string, ok: bool)
    requires Inv(s) && HandlerOf(s, fid).RevokeAdd? && Sound(s, Continue(fid, ok))
    ensures Inv(Advance(s, fid, ok))
  {
    var t := Advance(s, fid, ok);
    assert HandlerOk(s, fid);
    AdvanceIsSteady(s, fid, ok);
    forall j | j in t.delivered && t.tokens[j].fid == fid
      ensures Safe(t, j)
    {
      assert Safe(s, j);
    }
    forall j | Exposed(t, fid, j)
      ensures Exposed(s, fid, j)
    {
    }
    Combine(s, t, fid);
  }

  lemma RevokeDateKeeps(s: State, fid: string, ok: bool)
    requires Inv(s) && HandlerOf(s, fid).RevokeDate? && Sound(s, Continue(fid, ok))
    ensures Inv(Advance(s, fid, ok))
  {
    var h, t := HandlerOf(s, fid), Advance(s, fid, ok);
    assert HandlerOk(s, fid);
    AdvanceIsSteady(s, fid, ok);
    forall j | j in t.delivered && t.tokens[j].fid == fid
      ensures Safe(t, j)
    {
      assert Safe(s, j);
    }
    RevokeDateKeepsHandler(s, fid, ok);
    Combine(s, t, fid);
  }

  lemma RevokeDateKeepsHandler(s: State, fid: string, ok: bool)
    requires HandlerOf(s, fid).RevokeDate? && HandlerOk(s, fid) && Sound(s, Continue(fid, ok))
    requires forall j | j in s.delivered :: j in s.tokens
    requires forall j | j in s.delivered && Covered(s, j) && Unexpired(s, j) :: Covered(Advance(s, fid, ok), j)
    ensures HandlerOk(Advance(s, fid, ok), fid)
  {
    var h, t := HandlerOf(s, fid), Advance(s, fid, ok);
    if h.follow.Rest? {
      var todo := h.follow.todo;
      forall j | Exposed(t, fid, j)
        ensures j in Items(todo) && s.tokens[j].exp <= h.until
      {
        assert Exposed(s, fid, j);
      }
      if todo != [] {
        ItemsSplit(todo);
      }
    }
  }

  lemma ItemsSplit(todo: seq<string>)
    requires todo != []
    ensures Items(todo) == {todo[0]} + Items(todo[1..])
  {
    forall x | x in Items(todo)
      ensures x in {todo[0]} + Items(todo[1..])
    {
      var i :| 0 <= i < |todo| && todo[i] == x;
      assert i > 0 ==> todo[1..][i - 1] == x;
    }
  }

  lemma StepKeeps(s: State, step: Step)
    requires Inv(s) && Sound(s, step)
    ensures Inv(Apply(s, step))
  {
    match step
    case Tick(d) => TickKeeps(s, d);
    case Crash(fid) => CrashKeeps(s, fid);
    case Continue(fid, ok) =>
      var h := HandlerOf(s, fid);
      if OnTracking(h) {
        TrackingKeeps(s, fid, ok);
      } else if h.Deliver? {
        DeliverKeeps(s, fid, ok);
      } else if h.RevokeAdd? {
        RevokeAddKeeps(s, fid, ok);
      } else if h.RevokeDate? {
        RevokeDateKeeps(s, fid, ok);
      }
    case _ => BeginKeeps(s, step);
  }

  // ----- Every run -----

  function Initial(now: int): State {
    State(now, map[], {}, map[], GONE, map[])
  }

  function RunTo(s: State, steps: seq<Step>, n: nat): State
    requires n <= |steps|
  {
    if n == 0 then s else Apply(RunTo(s, steps, n - 1), steps[n - 1])
  }

  predicate SoundRun(s: State, steps: seq<Step>) {
    forall i | 0 <= i < |steps| :: Sound(RunTo(s, steps, i), steps[i])
  }

  lemma {:induction false} RunKeeps(s: State, steps: seq<Step>, n: nat)
    requires Inv(s) && n <= |steps| && SoundRun(s, steps)
    ensures Inv(RunTo(s, steps, n))
  {
    if n > 0 {
      RunKeeps(s, steps, n - 1);
      assert Sound(RunTo(s, steps, n - 1), steps[n - 1]);
      StepKeeps(RunTo(s, steps, n - 1), steps[n - 1]);
    }
  }

  /** A mass revocation that reaches its last call has revoked every token the
      commander's clients hold. */
  lemma RevokeAllRevokesAll(now: int, steps: seq<Step>, fid: string, jti: string)
    requires SoundRun(Initial(now), steps)
    requires HandlerOf(RunTo(Initial(now), steps, |steps|), fid).Drop?
    requires Owns(RunTo(Initial(now), steps, |steps|), fid, jti)
    ensures !Accepts(RunTo(Initial(now), steps, |steps|), jti)
  {
    var s := RunTo(Initial(now), steps, |steps|);
    RunKeeps(Initial(now), steps, |steps|);
    assert HandlerOk(s, fid) && !Exposed(s, fid, jti);
  }

  // ----- Where the reliance is exact -----

  /** An EXPIREAT on the revoked set keeps every token safe exactly when it does
      not come before the end of an untracked one. */
  lemma RevocationDeadlineExactly(s: State, fid: string)
    requires Inv(s) && HandlerOf(s, fid).RevokeDate? && Seen(s.revoked, s.now).members != {}
    ensures (forall j | j in s.delivered :: Safe(Advance(s, fid, true), j))
       <==> (forall j | j in s.delivered && Unexpired(s, j) && !Tracked(s, j) ::
               s.tokens[j].exp <= HandlerOf(s, fid).until)
  {
    var t := Advance(s, fid, true);
    forall j | j in s.delivered
      ensures Safe(t, j) <==> (Unexpired(s, j) && !Tracked(s, j) ==> s.tokens[j].exp <= HandlerOf(s, fid).until)
    {
      assert Safe(s, j);
    }
  }

  /** A deadline that comes too early: once it is reached, a revoked token with
      life left is accepted again. */
  lemma EarlyDeadlineRevives(s: State, fid: string, jti: string, d: nat)
    requires HandlerOf(s, fid).RevokeDate?
    requires jti in s.delivered && jti in s.tokens && jti in Seen(s.revoked, s.now).members
    requires HandlerOf(s, fid).until <= s.now + d < s.tokens[jti].exp
    ensures Accepts(Apply(Advance(s, fid, true), Tick(d)), jti)
  {
  }

  /** An EXPIRE that finds no key leaves the token it was for untracked; one that
      finds the key tracks it for its whole life. */
  lemma TrackingDeadlineExactly(s: State, fid: string)
    requires Inv(s) && HandlerOf(s, fid).Renew?
    requires Accepts(s.(delivered := s.delivered + {HandlerOf(s, fid).jti}), HandlerOf(s, fid).jti)
    ensures var t := Advance(Advance(s, fid, true), fid, true);
            Accepts(t, HandlerOf(s, fid).jti) && (Tracked(t, HandlerOf(s, fid).jti) <==> Members(s, fid) != {})
  {
    assert HandlerOk(s, fid);
  }

  // ----- Exactly when every accepted token is tracked -----

  ghost predicate AllSafe(s: State) {
    forall j | j in s.delivered :: Safe(s, j)
  }

  /** The token a handler is about to deliver has been issued. */
  predicate Carries(s: State, h: Handler) {
    match h
    case Track(jti) => jti in s.tokens
    case Renew(jti) => jti in s.tokens
    case Deliver(jti) => jti in s.tokens
    case RevokeAdd(_, _, follow) => follow.Rotate? ==> follow.next in s.tokens
    case RevokeDate(_, _, follow) => follow.Rotate? ==> follow.next in s.tokens
    case TrackNext(_, next) => next in s.tokens
    case UntrackOld(_, next) => next in s.tokens
    case _ => true
  }

  ghost predicate Wellborn(s: State) {
    && (forall j | j in s.delivered :: j in s.tokens)
    && (forall fid :: Carries(s, HandlerOf(s, fid)))
  }

  /** What a step must find: a delivery its token tracked or revoked, an EXPIRE no token
      to be tracked for longer, an EXPIREAT no untracked token that outlives it, an SREM
      or a DEL no token that is not revoked. */
  ghost predicate Keeps(s: State, step: Step) {
    if !step.Continue? then true else
    var fid := step.fid;
    match HandlerOf(s, fid)
    case Deliver(jti) => Unexpired(s, jti) ==> Tracked(s, jti) || Covered(s, jti)
    case Renew(_) => step.ok ==> forall j | Exposed(s, fid, j) :: s.tokens[j].exp <= s.now + DAY
    case RevokeDate(_, until, _) =>
      step.ok && Seen(s.revoked, s.now).members != {} ==>
        forall j | j in s.delivered && Unexpired(s, j) && !Tracked(s, j) :: s.tokens[j].exp <= until
    case UntrackOld(prior, _) => step.ok ==> !Exposed(s, fid, prior)
    case Untrack(jti) => step.ok ==> !Exposed(s, fid, jti)
    case Drop => step.ok ==> forall j :: !Exposed(s, fid, j)
    case _ => true
  }

  lemma AdvanceCarries(s: State, fid: string, ok: bool)
    requires Carries(s, HandlerOf(s, fid))
    ensures var t := Advance(s, fid, ok);
            && t.tokens == s.tokens && t.now == s.now
            && Carries(t, HandlerOf(t, fid)) && forall g | g != fid :: HandlerOf(t, g) == HandlerOf(s, g)
  {
  }

  lemma BeginCarries(s: State, step: Step)
    requires !step.Tick? && !step.Continue? && Carries(s, HandlerOf(s, step.fid))
    ensures var t := Apply(s, step);
            && t.now == s.now && t.delivered == s.delivered && Carries(t, HandlerOf(t, step.fid))
            && (forall j | j in s.tokens :: j in t.tokens)
            && forall g | g != step.fid :: HandlerOf(t, g) == HandlerOf(s, g)
  {
  }

  lemma StepStaysWellborn(s: State, step: Step)
    requires Wellborn(s)
    ensures Wellborn(Apply(s, step))
  {
    var t := Apply(s, step);
    match step
    case Tick(_) =>
      assert forall fid :: HandlerOf(t, fid) == HandlerOf(s, fid);
    case Continue(fid, ok) =>
      AdvanceCarries(s, fid, ok);
      forall g
        ensures Carries(t, HandlerOf(t, g))
      {
        assert g != fid ==> Carries(s, HandlerOf(s, g));
      }
    case _ =>
      BeginCarries(s, step);
      forall g
        ensures Carries(t, HandlerOf(t, g))
      {
        assert g != step.fid ==> Carries(s, HandlerOf(s, g));
      }
  }

  lemma TickStaysSafe(s: State, d: nat)
    requires AllSafe(s)
    ensures AllSafe(Apply(s, Tick(d)))
  {
    var t := Apply(s, Tick(d));
    forall j | j in t.delivered
      ensures Safe(t, j)
    {
      assert Safe(s, j);
    }
  }

  /** SADD only ever adds to what is tracked. */
  lemma TrackingStaysSafe(s: State, fid: string, ok: bool)
    requires AllSafe(s) && (HandlerOf(s, fid).Track? || HandlerOf(s, fid).TrackNext?)
    ensures AllSafe(Advance(s, fid, ok))
  {
    var t := Advance(s, fid, ok);
    forall j | j in t.delivered
      ensures Safe(t, j)
    {
      assert Safe(s, j);
    }
  }

  lemma RenewalSafeExactly(s: State, fid: string, ok: bool)
    requires AllSafe(s) && HandlerOf(s, fid).Renew?
    ensures AllSafe(Advance(s, fid, ok)) <==> Keeps(s, Continue(fid, ok))
  {
    var t := Advance(s, fid, ok);
    forall j | j in s.delivered
      ensures Safe(t, j) <==> (ok && Exposed(s, fid, j) ==> s.tokens[j].exp <= s.now + DAY)
    {
      assert Safe(s, j);
    }
  }

  lemma UntrackingSafeExactly(s: State, fid: string, ok: bool)
    requires Wellborn(s) && AllSafe(s)
    requires HandlerOf(s, fid).UntrackOld? || HandlerOf(s, fid).Untrack? || HandlerOf(s, fid).Drop?
    ensures AllSafe(Advance(s, fid, ok)) <==> Keeps(s, Continue(fid, ok))
  {
    var h, t := HandlerOf(s, fid), Advance(s, fid, ok);
    forall j | j in s.delivered
      ensures Safe(t, j) <==> (ok && Exposed(s, fid, j) ==> match h
                                                            case UntrackOld(prior, _) => j != prior
                                                            case Untrack(jti) => j != jti
                                                            case _ => false)
    {
      assert Safe(s, j);
    }
  }

  lemma RevokingSafeExactly(s: State, fid: string, ok: bool)
    requires Wellborn(s) && AllSafe(s) && (HandlerOf(s, fid).RevokeAdd? || HandlerOf(s, fid).RevokeDate?)
    ensures AllSafe(Advance(s, fid, ok)) <==> Keeps(s, Continue(fid, ok))
  {
    var h, t := HandlerOf(s, fid), Advance(s, fid, ok);
    forall j | j in s.delivered
      ensures h.RevokeAdd? ==> Safe(t, j)
      ensures h.RevokeDate? && ok && Seen(s.revoked, s.now).members != {} ==>
                (Safe(t, j) <==> (Unexpired(s, j) && !Tracked(s, j) ==> s.tokens[j].exp <= h.until))
      ensures h.RevokeDate? && !(ok && Seen(s.revoked, s.now).members != {}) ==> Safe(t, j)
    {
      assert Safe(s, j);
    }
  }

  lemma DeliverySafeExactly(s: State, fid: string, ok: bool)
    requires Wellborn(s) && AllSafe(s) && HandlerOf(s, fid).Deliver?
    ensures AllSafe(Advance(s, fid, ok)) <==> Keeps(s, Continue(fid, ok))
  {
    var jti, t := HandlerOf(s, fid).jti, Advance(s, fid, ok);
    assert jti in t.delivered;
    forall j | j in t.delivered
      ensures Safe(t, j) <==> (j == jti ==> Keeps(s, Continue(fid, ok)))
    {
      assert j in s.delivered ==> Safe(s, j);
    }
  }

  lemma BeginStaysSafe(s: State, step: Step)
    requires Wellborn(s) && AllSafe(s) && !step.Tick? && !step.Continue?
    ensures AllSafe(Apply(s, step))
  {
    var t := Apply(s, step);
    forall j | j in t.delivered
      ensures Safe(t, j)
    {
      assert Safe(s, j);
    }
  }

  /** Whatever call fails or succeeds: a step keeps every token safe exactly under its
      condition. */
  lemma StepKeepsExactly(s: State, step: Step)
    requires Wellborn(s) && AllSafe(s)
    ensures Wellborn(Apply(s, step))
    ensures AllSafe(Apply(s, step)) <==> Keeps(s, step)
  {
    StepStaysWellborn(s, step);
    match step
    case Tick(d) => TickStaysSafe(s, d);
    case Continue(fid, ok) =>
      match HandlerOf(s, fid) {
        case Idle =>
        case Renew(_) => RenewalSafeExactly(s, fid, ok);
        case Deliver(_) => DeliverySafeExactly(s, fid, ok);
        case RevokeAdd(_, _, _) => RevokingSafeExactly(s, fid, ok);
        case RevokeDate(_, _, _) => RevokingSafeExactly(s, fid, ok);
        case UntrackOld(_, _) => UntrackingSafeExactly(s, fid, ok);
        case Untrack(_) => UntrackingSafeExactly(s, fid, ok);
        case Drop => UntrackingSafeExactly(s, fid, ok);
        case _ => TrackingStaysSafe(s, fid, ok);
      }
    case _ => BeginStaysSafe(s, step);
  }

  ghost predicate KeepsTo(s: State, steps: seq<Step>, n: nat)
    requires n <= |steps|
  {
    n > 0 ==> KeepsTo(s, steps, n - 1) && Keeps(RunTo(s, steps, n - 1), steps[n - 1])
  }

  ghost predicate SafeTo(s: State, steps: seq<Step>, n: nat)
    requires n <= |steps|
  {
    (n > 0 ==> SafeTo(s, steps, n - 1)) && AllSafe(RunTo(s, steps, n))
  }

  /** Through a run of any calls, failing or not and stopping anywhere, unexpired tokens
      stay tracked or revoked for good exactly when every step meets its condition. */
  lemma {:induction false} SafeHoldsExactly(s: State, steps: seq<Step>, n: nat)
    requires Wellborn(s) && AllSafe(s) && n <= |steps|
    ensures Wellborn(RunTo(s, steps, n))
    ensures SafeTo(s, steps, n) <==> KeepsTo(s, steps, n)
  {
    if n > 0 {
      SafeHoldsExactly(s, steps, n - 1);
      StepStaysWellborn(RunTo(s, steps, n - 1), steps[n - 1]);
      if SafeTo(s, steps, n - 1) {
        StepKeepsExactly(RunTo(s, steps, n - 1), steps[n - 1]);
      }
    }
  }

  /** While every step meets its condition, a token that Validate accepts is enumerable
      in its commander's tracking set. */
  lemma AcceptedIsTracked(now: int, steps: seq<Step>, jti: string)
    requires KeepsTo(Initial(now), steps, |steps|)
    requires Accepts(RunTo(Initial(now), steps, |steps|), jti)
    ensures Tracked(RunTo(Initial(now), steps, |steps|), jti)
  {
    SafeHoldsExactly(Initial(now), steps, |steps|);
    assert Safe(RunTo(Initial(now), steps, |steps|), jti);
  }

  /** Runs in which the needed calls succeed and deadlines spare meet every condition. */
  lemma {:induction false} SoundRunKeeps(now: int, steps: seq<Step>, n: nat)
    requires SoundRun(Initial(now), steps) && n <= |steps|
    ensures KeepsTo(Initial(now), steps, n)
  {
    if n > 0 {
      SoundRunKeeps(now, steps, n - 1);
      SafeHoldsExactly(Initial(now), steps, n - 1);
      var before := RunTo(Initial(now), steps, n - 1);
      assert Sound(before, steps[n - 1]);
      RunKeeps(Initial(now), steps, n - 1);
      StepKeeps(before, steps[n - 1]);
      StepKeepsExactly(before, steps[n - 1]);
    }
  }

  /** A login whose SADD and EXPIRE fail. */
  function UntrackedLogin(fid: string, jti: string, exp: int): seq<Step> {
    [BeginLogin(fid, jti, exp), Continue(fid, false), Continue(fid, false), Continue(fid, true)]
  }

  lemma RunOfFour(s: State, steps: seq<Step>)
    requires |steps| == 4
    ensures RunTo(s, steps, 4) == Apply(Apply(Apply(Apply(s, steps[0]), steps[1]), steps[2]), steps[3])
  {
    assert RunTo(s, steps, 1) == Apply(RunTo(s, steps, 0), steps[0]);
    assert RunTo(s, steps, 3) == Apply(RunTo(s, steps, 2), steps[2]);
  }

  /** It is let in all the same: a token that is accepted and that no mass revocation finds. */
  lemma UntrackedLoginIsAccepted(now: int, fid: string, jti: string, exp: int)
    requires now < exp
    ensures var s := RunTo(Initial(now), UntrackedLogin(fid, jti, exp), 4);
            Accepts(s, jti) && s.tokens[jti].fid == fid && !Tracked(s, jti) && Members(s, fid) == {}
  {
    RunOfFour(Initial(now), UntrackedLogin(fid, jti, exp));
  }
}
