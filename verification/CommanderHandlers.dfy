/** The handlers of CommanderTracking run to their end with nothing in between and
    no call failing: what each leaves in the sets, and which tokens clients can use. */
module CommanderHandlers {
  import opened Basics
  import opened RedisSets
  import opened CommanderSessions
  import opened CommanderTracking

  /** n calls of the handler of fid, none failing. */
  function Calls(s: State, fid: string, n: nat): State
    decreases n
  {
    if n == 0 then s else Calls(Advance(s, fid, true), fid, n - 1)
  }

  /** Issue, SADD, EXPIRE, deliver. */
  function Login(s: State, fid: string, jti: string, exp: int): State {
    Calls(Apply(s, BeginLogin(fid, jti, exp)), fid, 3)
  }

  /** Issue, SADD and EXPIREAT of the old jti, SADD, SREM, EXPIRE, deliver. */
  function Refresh(s: State, fid: string, jti: string, next: string, exp: int): State {
    Calls(Apply(s, BeginRefresh(fid, jti, next, exp)), fid, 6)
  }

  /** SADD and EXPIREAT, SREM. */
  function Logout(s: State, fid: string, jti: string): State {
    Calls(Apply(s, BeginLogout(fid, jti)), fid, 3)
  }

  /** The calls of a mass revocation after its first k members: two for each other
      member, and DEL. */
  function Left(order: seq<string>, k: nat): nat
    requires k <= |order|
  {
    2 * (|order| - k) + 1
  }

  /** SMEMBERS, SADD and EXPIREAT for each, DEL. */
  function RevokeAll(s: State, fid: string, order: seq<string>): State {
    Calls(Apply(s, BeginRevokeAll(fid, order)), fid, Left(order, 0))
  }

  // ----- What each leaves behind -----

  ghost predicate AllIdle(s: State) {
    forall fid :: HandlerOf(s, fid).Idle?
  }

  /** Only the handler and the set of fid may differ. */
  ghost predicate SameElsewhere(s: State, t: State, fid: string) {
    && t.now == s.now
    && forall g | g != fid :: TrackingSet(t, g) == TrackingSet(s, g) && HandlerOf(t, g) == HandlerOf(s, g)
  }

  lemma {:induction false} CallsStayHome(s: State, fid: string, n: nat)
    ensures SameElsewhere(s, Calls(s, fid, n), fid)
    decreases n
  {
    if n > 0 {
      CallsStayHome(Advance(s, fid, true), fid, n - 1);
      AdvanceStaysHome(s, fid);
    }
  }

  lemma AdvanceStaysHome(s: State, fid: string)
    ensures SameElsewhere(s, Advance(s, fid, true), fid)
  {
  }

  lemma IdleAgain(s: State, s1: State, t: State, fid: string)
    requires AllIdle(s) && SameElsewhere(s, s1, fid) && SameElsewhere(s1, t, fid) && HandlerOf(t, fid).Idle?
    ensures AllIdle(t) && SameElsewhere(s, t, fid)
  {
    forall g
      ensures HandlerOf(t, g).Idle?
    {
      assert g != fid ==> HandlerOf(t, g) == HandlerOf(s, g);
    }
  }

  predicate CanLogIn(s: State, jti: string) {
    jti !in s.tokens
  }

  predicate CanLogOut(s: State, fid: string, jti: string) {
    Accepts(s, jti) && s.tokens[jti].fid == fid
  }

  predicate CanRefresh(s: State, fid: string, jti: string, next: string) {
    CanLogOut(s, fid, jti) && next !in s.tokens
  }

  lemma IdleStays(s: State, fid: string, n: nat)
    requires HandlerOf(s, fid).Idle?
    ensures Calls(s, fid, n) == s
    decreases n
  {
    if n > 0 {
      IdleStays(s, fid, n - 1);
    }
  }

  /** One login later; nothing happens where the jti is taken. */
  ghost predicate LoggedIn(s: State, t: State, fid: string, jti: string, exp: int) {
    if !CanLogIn(s, jti) then t == s else
    && t.tokens == s.tokens[jti := Token(fid, exp)] && t.delivered == s.delivered + {jti}
    && t.revoked == s.revoked && SameElsewhere(s, t, fid)
    && TrackingSet(t, fid) == ExpireAt(Add(TrackingSet(s, fid), jti, s.now), s.now + DAY, s.now)
  }

  /** One logout later; nothing happens where the token is refused. */
  ghost predicate LoggedOut(s: State, t: State, fid: string, jti: string) {
    if !CanLogOut(s, fid, jti) then t == s else
    && t.tokens == s.tokens && t.delivered == s.delivered
    && t.revoked == ExpireAt(Add(s.revoked, jti, s.now), s.tokens[jti].exp, s.now)
    && SameElsewhere(s, t, fid) && TrackingSet(t, fid) == Remove(TrackingSet(s, fid), jti, s.now)
  }

  /** One refresh later. */
  ghost predicate Refreshed(s: State, t: State, fid: string, jti: string, next: string, exp: int) {
    if !CanRefresh(s, fid, jti, next) then t == s else
    && t.tokens == s.tokens[next := Token(fid, exp)] && t.delivered == s.delivered + {next}
    && t.revoked == ExpireAt(Add(s.revoked, jti, s.now), s.tokens[jti].exp, s.now)
    && SameElsewhere(s, t, fid)
    && TrackingSet(t, fid) ==
         ExpireAt(Remove(Add(TrackingSet(s, fid), next, s.now), jti, s.now), s.now + DAY, s.now)
  }

  lemma LoginEffect(s: State, fid: string, jti: string, exp: int)
    requires AllIdle(s)
    ensures LoggedIn(s, Login(s, fid, jti, exp), fid, jti, exp) && AllIdle(Login(s, fid, jti, exp))
  {
    var s1 := Apply(s, BeginLogin(fid, jti, exp));
    if CanLogIn(s, jti) {
      TrackCalls(s1, fid);
      CallsStayHome(s1, fid, 3);
      IdleAgain(s, s1, Calls(s1, fid, 3), fid);
    } else {
      IdleStays(s, fid, 3);
    }
  }

  lemma TrackCalls(s: State, fid: string)
    requires HandlerOf(s, fid).Track?
    ensures var t, jti := Calls(s, fid, 3), HandlerOf(s, fid).jti;
            && t.tokens == s.tokens && t.delivered == s.delivered + {jti} && t.revoked == s.revoked
            && TrackingSet(t, fid) == ExpireAt(Add(TrackingSet(s, fid), jti, s.now), s.now + DAY, s.now)
            && HandlerOf(t, fid).Idle?
  {
  }

  lemma LogoutEffect(s: State, fid: string, jti: string)
    requires AllIdle(s)
    ensures LoggedOut(s, Logout(s, fid, jti), fid, jti) && AllIdle(Logout(s, fid, jti))
  {
    var s1 := Apply(s, BeginLogout(fid, jti));
    if CanLogOut(s, fid, jti) {
      ForgetCalls(s1, fid);
      CallsStayHome(s1, fid, 3);
      IdleAgain(s, s1, Calls(s1, fid, 3), fid);
    } else {
      IdleStays(s, fid, 3);
    }
  }

  lemma ForgetCalls(s: State, fid: string)
    requires HandlerOf(s, fid).RevokeAdd? && HandlerOf(s, fid).follow.Forget?
    ensures var t, h := Calls(s, fid, 3), HandlerOf(s, fid);
            && t.tokens == s.tokens && t.delivered == s.delivered
            && t.revoked == ExpireAt(Add(s.revoked, h.jti, s.now), h.until, s.now)
            && TrackingSet(t, fid) == Remove(TrackingSet(s, fid), h.jti, s.now)
            && HandlerOf(t, fid).Idle?
  {
  }

  lemma RefreshEffect(s: State, fid: string, jti: string, next: string, exp: int)
    requires AllIdle(s)
    ensures Refreshed(s, Refresh(s, fid, jti, next, exp), fid, jti, next, exp)
    ensures AllIdle(Refresh(s, fid, jti, next, exp))
  {
    var s1 := Apply(s, BeginRefresh(fid, jti, next, exp));
    if CanRefresh(s, fid, jti, next) {
      RotateCalls(s1, fid);
      CallsStayHome(s1, fid, 6);
      IdleAgain(s, s1, Calls(s1, fid, 6), fid);
    } else {
      IdleStays(s, fid, 6);
    }
  }

  lemma {:induction false} CallsSplit(s: State, fid: string, m: nat, n: nat)
    ensures Calls(s, fid, m + n) == Calls(Calls(s, fid, m), fid, n)
    decreases m
  {
    if m > 0 {
      CallsSplit(Advance(s, fid, true), fid, m - 1, n);
    }
  }

  lemma RotateCalls(s: State, fid: string)
    requires HandlerOf(s, fid).RevokeAdd? && HandlerOf(s, fid).follow.Rotate?
    ensures var t, h := Calls(s, fid, 6), HandlerOf(s, fid);
            && t.tokens == s.tokens && t.delivered == s.delivered + {h.follow.next}
            && t.revoked == ExpireAt(Add(s.revoked, h.jti, s.now), h.until, s.now)
            && TrackingSet(t, fid) ==
                 ExpireAt(Remove(Add(TrackingSet(s, fid), h.follow.next, s.now), h.jti, s.now), s.now + DAY, s.now)
            && HandlerOf(t, fid).Idle?
  {
    CallsSplit(s, fid, 3, 3);
    RotateFirst(s, fid);
    RotateLast(Calls(s, fid, 3), fid);
  }

  /** The first half of a refresh, up to the SADD of the new jti. */
  lemma RotateFirst(s: State, fid: string)
    requires HandlerOf(s, fid).RevokeAdd? && HandlerOf(s, fid).follow.Rotate?
    ensures var t, h := Calls(s, fid, 3), HandlerOf(s, fid);
            && t.now == s.now && t.tokens == s.tokens && t.delivered == s.delivered
            && t.revoked == ExpireAt(Add(s.revoked, h.jti, s.now), h.until, s.now)
            && TrackingSet(t, fid) == Add(TrackingSet(s, fid), h.follow.next, s.now)
            && HandlerOf(t, fid) == UntrackOld(h.jti, h.follow.next)
  {
  }

  lemma RotateLast(s: State, fid: string)
    requires HandlerOf(s, fid).UntrackOld?
    ensures var t, h := Calls(s, fid, 3), HandlerOf(s, fid);
            && t.tokens == s.tokens && t.delivered == s.delivered + {h.next} && t.revoked == s.revoked
            && TrackingSet(t, fid) == ExpireAt(Remove(TrackingSet(s, fid), h.prior, s.now), s.now + DAY, s.now)
            && HandlerOf(t, fid).Idle?
  {
  }

  // ----- A mass revocation -----

  function AllFine(n: nat): seq<Fault> {
    seq(n, _ => Fine)
  }

  /** What the loop of the code makes of the revoked set. */
  function RevokedByLoop(s: State, order: seq<string>): RSet {
    AllRevoked(s.tracking, s.revoked, "", order, s.now, CommanderSessions.Calls(true, AllFine(|order|), true)).1
  }

  function AfterTwo(s: State, fid: string): State {
    Advance(Advance(s, fid, true), fid, true)
  }

  /** The handler has revoked the first k members since state s and goes on with the others. */
  ghost predicate TodoAt(s: State, t: State, fid: string, order: seq<string>, k: nat) {
    && k <= |order|
    && t.now == s.now && t.tokens == s.tokens && t.delivered == s.delivered
    && HandlerOf(t, fid) == FromTodo(order[k..], s.now + DAY)
    && t.revoked == RevokedTo(s.revoked, order, k, s.now + DAY, s.now, AllFine(|order|))
  }

  /** Where the revocation begun in state s ends. */
  ghost predicate AllDone(s: State, t: State, fid: string, order: seq<string>) {
    && t.tokens == s.tokens && t.delivered == s.delivered && t.revoked == RevokedByLoop(s, order)
    && TrackingSet(t, fid) == GONE && HandlerOf(t, fid).Idle?
  }

  lemma TodoNext(s: State, t: State, fid: string, order: seq<string>, k: nat)
    requires TodoAt(s, t, fid, order, k) && k < |order|
    ensures TodoAt(s, AfterTwo(t, fid), fid, order, k + 1)
  {
    assert order[k..][1..] == order[k + 1..];
  }

  lemma {:induction false} TodoEnds(s: State, t: State, fid: string, order: seq<string>, k: nat)
    requires TodoAt(s, t, fid, order, k)
    ensures AllDone(s, Calls(t, fid, Left(order, k)), fid, order)
    decreases |order| - k
  {
    if k == |order| {
      assert Calls(t, fid, 1) == Advance(t, fid, true);
    } else {
      TodoNext(s, t, fid, order, k);
      TodoEnds(s, AfterTwo(t, fid), fid, order, k + 1);
      assert Left(order, k) == Left(order, k + 1) + 2;
    }
  }

  /** Run to its end, the handler leaves the sets as the loop of the code does. */
  lemma RevokeAllEffect(s: State, fid: string, order: seq<string>)
    requires AllIdle(s) && Items(order) == Members(s, fid)
    ensures var t := RevokeAll(s, fid, order);
            AllDone(s, t, fid, order) && AllIdle(t) && SameElsewhere(s, t, fid)
  {
    var s1 := Apply(s, BeginRevokeAll(fid, order));
    assert order[0..] == order;
    TodoEnds(s, s1, fid, order, 0);
    CallsStayHome(s1, fid, Left(order, 0));
    IdleAgain(s, s1, Calls(s1, fid, Left(order, 0)), fid);
  }

  lemma LoopDeadline(s: State, order: seq<string>)
    requires order != []
    ensures RevokedByLoop(s, order).deadline == Some(s.now + DAY)
  {
  }

  lemma LoopMembers(s: State, order: seq<string>, x: string)
    ensures x in Seen(RevokedByLoop(s, order), s.now).members
       <==> x in Seen(s.revoked, s.now).members || x in Items(order)
  {
    var faults := AllFine(|order|);
    RevokedMembers(s.revoked, order, |order|, s.now + DAY, s.now, faults, x);
    assert (exists i | 0 <= i < |order| :: order[i] == x && !faults[i].AddFails?) <==> x in Items(order);
  }
}
