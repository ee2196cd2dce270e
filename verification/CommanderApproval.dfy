/** Logins, refreshes, logouts and administrators' actions as atomic steps: when an
    accepted token belongs to an approved commander. */
module CommanderApproval {
  import opened Basics
  import opened RedisSets
  import opened CommanderSessions
  import opened CommanderTracking
  import opened CommanderAccess
  import opened CommanderHandlers

  // ----- Tokens clients can use -----

  /** A token in a client's hands that is not revoked for the rest of its life. */
  predicate Usable(s: State, jti: string) {
    jti in s.delivered && Unexpired(s, jti) && !Covered(s, jti)
  }

  /** What holds between two handlers: nobody is under way, no token lives longer than
      a day, the sets hold issued tokens only, and a revoked set has its deadline. */
  ghost predicate Calm(s: State) {
    && AllIdle(s)
    && (forall j | j in s.tokens :: s.tokens[j].exp <= s.now + DAY)
    && (forall j | j in s.delivered :: j in s.tokens)
    && (forall x | x in Seen(s.revoked, s.now).members :: x in s.tokens)
    && (forall fid, x | x in TrackingSet(s, fid).members :: x in s.tokens)
    && (Seen(s.revoked, s.now).members != {} ==> s.revoked.deadline.Some?)
  }

  /** A token is usable exactly when Validate accepts it now or will if clients just wait. */
  lemma UsableExactly(s: State, jti: string)
    requires Calm(s)
    ensures Usable(s, jti) <==> exists d: nat :: Accepts(Apply(s, Tick(d)), jti)
  {
    if Usable(s, jti) {
      var d := if jti in Seen(s.revoked, s.now).members then s.revoked.deadline.value - s.now else 0;
      assert Accepts(Apply(s, Tick(d)), jti);
    }
  }

  /** The logout or refresh of token jti leaves token j usable. */
  predicate Outlasts(s: State, jti: string, j: string)
    requires jti in s.tokens
  {
    && j in s.delivered && Unexpired(s, j)
    && !((j == jti || j in Seen(s.revoked, s.now).members) && s.tokens[j].exp <= s.tokens[jti].exp)
  }

  lemma LoginUsable(s: State, fid: string, jti: string, exp: int)
    requires Calm(s) && exp <= s.now + DAY
    ensures var t := Login(s, fid, jti, exp);
            && Calm(t)
            && forall j :: Usable(t, j) <==> Usable(s, j) || (CanLogIn(s, jti) && j == jti && s.now < exp)
  {
    LoginEffect(s, fid, jti, exp);
  }

  lemma LogoutUsable(s: State, fid: string, jti: string)
    requires Calm(s)
    ensures var t := Logout(s, fid, jti);
            && Calm(t)
            && forall j :: Usable(t, j) <==> if CanLogOut(s, fid, jti) then Outlasts(s, jti, j) else Usable(s, j)
  {
    LogoutEffect(s, fid, jti);
  }

  lemma RefreshUsable(s: State, fid: string, jti: string, next: string, exp: int)
    requires Calm(s) && exp <= s.now + DAY
    ensures var t := Refresh(s, fid, jti, next, exp);
            && Calm(t)
            && forall j :: Usable(t, j) <==>
                 if CanRefresh(s, fid, jti, next) then Outlasts(s, jti, j) || (j == next && s.now < exp)
                 else Usable(s, j)
  {
    RefreshEffect(s, fid, jti, next, exp);
  }

  /** A mass revocation that finds something revokes it, and everything in the
      revoked set, for a day. */
  predicate Caught(s: State, fid: string, j: string) {
    Members(s, fid) != {} && (j in Members(s, fid) || j in Seen(s.revoked, s.now).members)
  }

  lemma RevokeAllUsable(s: State, fid: string, order: seq<string>)
    requires Calm(s) && Items(order) == Members(s, fid)
    ensures var t := RevokeAll(s, fid, order);
            && Calm(t) && forall j :: Usable(t, j) <==> Usable(s, j) && !Caught(s, fid, j)
  {
    RevokeAllEffect(s, fid, order);
    var t := RevokeAll(s, fid, order);
    if order == [] {
      assert t.revoked == s.revoked;
    } else {
      assert order[0] in Items(order);
      LoopDeadline(s, order);
    }
    forall j
      ensures Usable(t, j) <==> Usable(s, j) && !Caught(s, fid, j)
      ensures j in Seen(t.revoked, t.now).members ==> j in t.tokens
    {
      LoopMembers(s, order, j);
    }
  }

  lemma WaitUsable(s: State, d: nat)
    requires Calm(s)
    ensures var t := Apply(s, Tick(d));
            Calm(t) && forall j :: Usable(t, j) ==> Usable(s, j)
  {
    var t := Apply(s, Tick(d));
    forall fid
      ensures HandlerOf(t, fid).Idle? && TrackingSet(t, fid) == TrackingSet(s, fid)
    {
      assert HandlerOf(t, fid) == HandlerOf(s, fid);
    }
  }

  // ----- Atomic actions -----

  datatype World = World(rows: Rows, users: Directory, sessions: State)

  /** `order` is the answer of SMEMBERS where the action revokes sessions. */
  datatype Action =
    | Wait(d: nat)
    | Regroup(users: Directory)
    | LogIn(fid: string, linked: Option<Uuid>, jti: string, exp: int, repo: Service, authentik: Service)
    | RefreshToken(fid: string, jti: string, next: string, exp: int)
    | LogOut(fid: string, jti: string)
    | Grant(fid: string, group: string, f: Faults)
    | Revoke(fid: string, f: Faults, order: seq<string>)
    | Link(fid: string, link: Uuid, f: Faults, order: seq<string>)
    | Unlink(fid: string, f: Faults, order: seq<string>)
    | Approve(fid: string, f: Faults)
    | Deny(fid: string, f: Faults, order: seq<string>)

  /** UpsertCommander and the link step of a login: a new row is not approved, an
      old one keeps its approval and any link it has. */
  function Upserted(rows: Rows, fid: string, linked: Option<Uuid>): Rows {
    var row := if fid in rows then rows[fid] else Row(None, false);
    rows[fid := if Linked(row) then row else row.(link := linked)]
  }

  function Admin(w: World, fid: string, c: Change, order: seq<string>): World {
    World(c.rows, c.users, if c.revokes then RevokeAll(w.sessions, fid, order) else w.sessions)
  }

  function Perform(w: World, a: Action): World {
    match a
    case Wait(d) => w.(sessions := Apply(w.sessions, Tick(d)))
    case Regroup(users) => w.(users := users)
    case LogIn(fid, linked, jti, exp, repo, authentik) =>
      var rows := Upserted(w.rows, fid, linked);
      var decision := Decide(rows, w.users, fid, repo, authentik);
      World(rows, w.users, if decision.Allowed? then Login(w.sessions, fid, jti, exp) else w.sessions)
    case RefreshToken(fid, jti, next, exp) => w.(sessions := Refresh(w.sessions, fid, jti, next, exp))
    case LogOut(fid, jti) => w.(sessions := Logout(w.sessions, fid, jti))
    case Grant(fid, group, f) => Admin(w, fid, GrantChange(w.rows, w.users, fid, group, f), [])
    case Revoke(fid, f, order) => Admin(w, fid, RevokeChange(w.rows, w.users, fid, f), order)
    case Link(fid, link, f, order) => Admin(w, fid, LinkChange(w.rows, w.users, fid, link, f), order)
    case Unlink(fid, f, order) => Admin(w, fid, UnlinkChange(w.rows, w.users, fid, f), order)
    case Approve(fid, f) => Admin(w, fid, ApprovalChange(w.rows, w.users, fid, true, f), [])
    case Deny(fid, f, order) => Admin(w, fid, ApprovalChange(w.rows, w.users, fid, false, f), order)
  }

  /** A login makes the row, not approved, where there is none, gives it the link it lacks,
      and issues a token exactly where it is let in; nobody else's row changes. */
  lemma LogInExactly(w: World, fid: string, linked: Option<Uuid>, jti: string, exp: int, repo: Service,
        authentik: Service)
    ensures var after := Perform(w, LogIn(fid, linked, jti, exp, repo, authentik));
            var had := HasLink(w.rows, fid);
            && fid in after.rows && after.rows - {fid} == w.rows - {fid} && after.users == w.users
            && (after.rows[fid].approved <==> fid in w.rows && w.rows[fid].approved)
            && after.rows[fid].link == (if had then w.rows[fid].link else linked)
            && after.sessions == (if Decide(after.rows, w.users, fid, repo, authentik).Allowed?
                                  then Login(w.sessions, fid, jti, exp) else w.sessions)
  {
  }

  /** The action left these rows and groups, and went on to revoke the commander's
      sessions exactly where it succeeded. */
  ghost predicate Carried(w: World, after: World, fid: string, c: Change, order: seq<string>) {
    && after.rows == c.rows && after.users == c.users
    && after.sessions == if c.status == 200 then RevokeAll(w.sessions, fid, order) else w.sessions
  }

  /** The administrators' actions, as CommanderAccess has them. */
  lemma GroupActionsExactly(w: World, fid: string, group: string, f: Faults, order: seq<string>)
    ensures var c, after := GrantChange(w.rows, w.users, fid, group, f), Perform(w, Grant(fid, group, f));
            after.rows == c.rows && after.users == c.users && after.sessions == w.sessions
    ensures Carried(w, Perform(w, Revoke(fid, f, order)), fid, RevokeChange(w.rows, w.users, fid, f), order)
  {
  }

  lemma LinkActionsExactly(w: World, fid: string, link: Uuid, f: Faults, order: seq<string>)
    ensures Carried(w, Perform(w, Link(fid, link, f, order)), fid, LinkChange(w.rows, w.users, fid, link, f), order)
    ensures Carried(w, Perform(w, Unlink(fid, f, order)), fid, UnlinkChange(w.rows, w.users, fid, f), order)
  {
  }

  lemma ApprovalActionsExactly(w: World, fid: string, f: Faults, order: seq<string>)
    ensures var c, after := ApprovalChange(w.rows, w.users, fid, true, f), Perform(w, Approve(fid, f));
            after.rows == c.rows && after.users == w.users && after.sessions == w.sessions
    ensures Carried(w, Perform(w, Deny(fid, f, order)), fid, ApprovalChange(w.rows, w.users, fid, false, f), order)
  {
  }

  /** Waiting and a change of groups by others; refresh and logout leave rows and groups. */
  lemma OtherActionsExactly(w: World, d: nat, users: Directory, fid: string, jti: string, next: string, exp: int)
    ensures Perform(w, Wait(d)) == World(w.rows, w.users, w.sessions.(now := w.sessions.now + d))
    ensures Perform(w, Regroup(users)) == World(w.rows, users, w.sessions)
    ensures Perform(w, RefreshToken(fid, jti, next, exp))
         == World(w.rows, w.users, Refresh(w.sessions, fid, jti, next, exp))
    ensures Perform(w, LogOut(fid, jti)) == World(w.rows, w.users, Logout(w.sessions, fid, jti))
  {
  }

  predicate Enumerates(w: World, fid: string, order: seq<string>) {
    Items(order) == Members(w.sessions, fid)
  }

  /** Token lives of at most a day, and SMEMBERS answers that list the set. Database and
      Authentik calls may fail at will. */
  predicate Timely(w: World, a: Action) {
    match a
    case LogIn(_, _, _, exp, _, _) => exp <= w.sessions.now + DAY
    case RefreshToken(_, _, _, exp) => exp <= w.sessions.now + DAY
    case Revoke(fid, _, order) => Enumerates(w, fid, order)
    case Link(fid, _, _, order) => Enumerates(w, fid, order)
    case Unlink(fid, _, order) => Enumerates(w, fid, order)
    case Deny(fid, _, order) => Enumerates(w, fid, order)
    case _ => true
  }

  predicate Approved(rows: Rows, fid: string) {
    fid in rows && rows[fid].approved
  }

  /** The token is usable although its commander is not approved. */
  predicate Stray(w: World, j: string) {
    Usable(w.sessions, j) && !Approved(w.rows, w.sessions.tokens[j].fid)
  }

  ghost predicate Gate(w: World) {
    forall j :: !Stray(w, j)
  }

  // ----- When one action keeps the gate -----

  /** Every unexpired token of a commander who is not approved ends by then. */
  predicate SparesUnapproved(w: World, until: int) {
    forall j | j in w.sessions.delivered && Unexpired(w.sessions, j) && !Approved(w.rows, w.sessions.tokens[j].fid) ::
      w.sessions.tokens[j].exp <= until
  }

  /** A mass revocation reaches every token the commander's clients can use. */
  ghost predicate Reaches(w: World, fid: string) {
    forall j | Usable(w.sessions, j) && w.sessions.tokens[j].fid == fid :: Caught(w.sessions, fid, j)
  }

  ghost predicate AdminKeeps(w: World, fid: string, c: Change) {
    c.revokes && !Approved(c.rows, fid) ==> Reaches(w, fid)
  }

  /** What an action can check before it starts. */
  ghost predicate Keeps(w: World, a: Action) {
    var s := w.sessions;
    match a
    case LogOut(fid, jti) => CanLogOut(s, fid, jti) ==> SparesUnapproved(w, s.tokens[jti].exp)
    case RefreshToken(fid, jti, next, _) => CanRefresh(s, fid, jti, next) ==> SparesUnapproved(w, s.tokens[jti].exp)
    case Revoke(fid, f, _) => AdminKeeps(w, fid, RevokeChange(w.rows, w.users, fid, f))
    case Unlink(fid, f, _) => AdminKeeps(w, fid, UnlinkChange(w.rows, w.users, fid, f))
    case Deny(fid, f, _) => AdminKeeps(w, fid, ApprovalChange(w.rows, w.users, fid, false, f))
    case _ => true
  }

  /** A logout keeps the gate exactly when the new deadline does not come before the
      end of a token whose commander is not approved. */
  lemma LogOutKeepsExactly(w: World, fid: string, jti: string)
    requires Calm(w.sessions) && Gate(w)
    ensures Calm(Perform(w, LogOut(fid, jti)).sessions)
    ensures Gate(Perform(w, LogOut(fid, jti))) <==> Keeps(w, LogOut(fid, jti))
  {
    LogoutUsable(w.sessions, fid, jti);
    LogoutEffect(w.sessions, fid, jti);
    var after := Perform(w, LogOut(fid, jti));
    if CanLogOut(w.sessions, fid, jti) {
      OutlastingStrays(w, jti);
      forall j
        ensures Stray(after, j) <==> Outlasts(w.sessions, jti, j) && !Approved(w.rows, w.sessions.tokens[j].fid)
      {
      }
    } else {
      assert after == w;
    }
  }

  /** Under the gate a token of an unapproved commander outlasts another's end exactly
      by its own. */
  lemma OutlastingStrays(w: World, jti: string)
    requires Calm(w.sessions) && Gate(w) && Accepts(w.sessions, jti)
    ensures SparesUnapproved(w, w.sessions.tokens[jti].exp)
       <==> forall j :: !(Outlasts(w.sessions, jti, j) && !Approved(w.rows, w.sessions.tokens[j].fid))
  {
    var s := w.sessions;
    assert !Stray(w, jti);
    forall j | j in s.delivered && Unexpired(s, j) && !Approved(w.rows, s.tokens[j].fid)
      ensures Outlasts(s, jti, j) <==> s.tokens[j].exp > s.tokens[jti].exp
    {
      assert !Stray(w, j);
    }
  }

  lemma RefreshKeepsExactly(w: World, fid: string, jti: string, next: string, exp: int)
    requires Calm(w.sessions) && Gate(w) && exp <= w.sessions.now + DAY
    ensures Calm(Perform(w, RefreshToken(fid, jti, next, exp)).sessions)
    ensures Gate(Perform(w, RefreshToken(fid, jti, next, exp))) <==> Keeps(w, RefreshToken(fid, jti, next, exp))
  {
    RefreshUsable(w.sessions, fid, jti, next, exp);
    RefreshEffect(w.sessions, fid, jti, next, exp);
    var after := Perform(w, RefreshToken(fid, jti, next, exp));
    if CanRefresh(w.sessions, fid, jti, next) {
      OutlastingStrays(w, jti);
      assert !Stray(w, jti);
      forall j
        ensures Stray(after, j) <==> Outlasts(w.sessions, jti, j) && !Approved(w.rows, w.sessions.tokens[j].fid)
      {
      }
    } else {
      assert after == w;
    }
  }

  /** An administrator's action keeps the gate exactly when the mass revocation that
      goes with a lost approval reaches every usable token. */
  lemma AdminKeepsExactly(w: World, fid: string, c: Change, order: seq<string>)
    requires Calm(w.sessions) && Gate(w) && (c.revokes ==> Enumerates(w, fid, order))
    requires forall g | Approved(w.rows, g) :: Approved(c.rows, g) || (g == fid && c.revokes)
    ensures Calm(Admin(w, fid, c, order).sessions)
    ensures Gate(Admin(w, fid, c, order)) <==> AdminKeeps(w, fid, c)
  {
    var after := Admin(w, fid, c, order);
    if c.revokes {
      RevokeAllUsable(w.sessions, fid, order);
      RevokeAllEffect(w.sessions, fid, order);
    }
    forall j
      ensures Stray(after, j) <==> && Usable(w.sessions, j) && !(c.revokes && Caught(w.sessions, fid, j))
                                   && !Approved(c.rows, w.sessions.tokens[j].fid)
      ensures Stray(after, j) ==> w.sessions.tokens[j].fid == fid && c.revokes
    {
      assert !Stray(w, j);
    }
  }

  lemma LogInKeeps(w: World, a: Action)
    requires Calm(w.sessions) && Gate(w) && a.LogIn? && Timely(w, a)
    ensures Calm(Perform(w, a).sessions) && Gate(Perform(w, a))
  {
    var rows, after := Upserted(w.rows, a.fid, a.linked), Perform(w, a);
    LoginUsable(w.sessions, a.fid, a.jti, a.exp);
    LoginEffect(w.sessions, a.fid, a.jti, a.exp);
    forall j
      ensures !Stray(after, j)
    {
      assert !Stray(w, j);
    }
  }

  /** From a state that meets it, an action keeps the gate exactly under its condition. */
  lemma ActionKeepsExactly(w: World, a: Action)
    requires Calm(w.sessions) && Gate(w) && Timely(w, a)
    ensures Calm(Perform(w, a).sessions)
    ensures Gate(Perform(w, a)) <==> Keeps(w, a)
  {
    match a
    case Wait(d) =>
      WaitUsable(w.sessions, d);
      assert forall j :: !Stray(w, j) ==> !Stray(Perform(w, a), j);
    case Regroup(_) =>
      assert forall j :: !Stray(w, j) ==> !Stray(Perform(w, a), j);
    case LogIn(_, _, _, _, _, _) => LogInKeeps(w, a);
    case RefreshToken(fid, jti, next, exp) => RefreshKeepsExactly(w, fid, jti, next, exp);
    case LogOut(fid, jti) => LogOutKeepsExactly(w, fid, jti);
    case Grant(fid, group, f) => AdminKeepsExactly(w, fid, GrantChange(w.rows, w.users, fid, group, f), []);
    case Revoke(fid, f, order) => AdminKeepsExactly(w, fid, RevokeChange(w.rows, w.users, fid, f), order);
    case Link(fid, link, f, order) =>
      AdminKeepsExactly(w, fid, LinkChange(w.rows, w.users, fid, link, f), order);
      LinkKeeps(w, fid, link, f);
    case Unlink(fid, f, order) => AdminKeepsExactly(w, fid, UnlinkChange(w.rows, w.users, fid, f), order);
    case Approve(fid, f) => AdminKeepsExactly(w, fid, ApprovalChange(w.rows, w.users, fid, true, f), []);
    case Deny(fid, f, order) => AdminKeepsExactly(w, fid, ApprovalChange(w.rows, w.users, fid, false, f), order);
  }

  /** A link change leaves the approval, so it needs no condition. */
  lemma LinkKeeps(w: World, fid: string, link: Uuid, f: Faults)
    requires Gate(w)
    ensures AdminKeeps(w, fid, LinkChange(w.rows, w.users, fid, link, f))
  {
    forall j | Usable(w.sessions, j) && w.sessions.tokens[j].fid == fid
      ensures Approved(w.rows, fid)
    {
      assert !Stray(w, j);
    }
  }

  // ----- Every run -----

  function RunTo(w: World, actions: seq<Action>, n: nat): World
    requires n <= |actions|
  {
    if n == 0 then w else Perform(RunTo(w, actions, n - 1), actions[n - 1])
  }

  predicate TimelyRun(w: World, actions: seq<Action>) {
    forall i | 0 <= i < |actions| :: Timely(RunTo(w, actions, i), actions[i])
  }

  ghost predicate KeepsTo(w: World, actions: seq<Action>, n: nat)
    requires n <= |actions|
  {
    forall i | 0 <= i < n :: Keeps(RunTo(w, actions, i), actions[i])
  }

  ghost predicate GateTo(w: World, actions: seq<Action>, n: nat)
    requires n <= |actions|
  {
    forall i | 0 <= i <= n :: Gate(RunTo(w, actions, i))
  }

  /** In a run the gate holds throughout exactly when every action meets its condition. */
  lemma {:induction false} GateHoldsExactly(w: World, actions: seq<Action>, n: nat)
    requires Calm(w.sessions) && Gate(w) && TimelyRun(w, actions) && n <= |actions|
    ensures GateTo(w, actions, n) <==> KeepsTo(w, actions, n)
    ensures GateTo(w, actions, n) ==> Calm(RunTo(w, actions, n).sessions)
  {
    if n > 0 {
      GateHoldsExactly(w, actions, n - 1);
      var before := RunTo(w, actions, n - 1);
      assert Timely(before, actions[n - 1]);
      if GateTo(w, actions, n - 1) {
        assert Gate(before);
        ActionKeepsExactly(before, actions[n - 1]);
        assert Gate(RunTo(w, actions, n)) <==> Keeps(before, actions[n - 1]);
      }
      GateToNext(w, actions, n);
    }
  }

  lemma GateToNext(w: World, actions: seq<Action>, n: nat)
    requires 0 < n <= |actions|
    ensures GateTo(w, actions, n) <==> GateTo(w, actions, n - 1) && Gate(RunTo(w, actions, n))
    ensures KeepsTo(w, actions, n) <==> KeepsTo(w, actions, n - 1) && Keeps(RunTo(w, actions, n - 1), actions[n - 1])
  {
  }

  /** From the start on: while every action meets its condition, whenever Validate
      accepts a token its commander's row is approved, although refresh never looks
      at the row. */
  lemma AcceptedIsApproved(rows: Rows, users: Directory, now: int, actions: seq<Action>, jti: string)
    requires TimelyRun(World(rows, users, Initial(now)), actions)
    requires KeepsTo(World(rows, users, Initial(now)), actions, |actions|)
    ensures var w := RunTo(World(rows, users, Initial(now)), actions, |actions|);
            Accepts(w.sessions, jti) ==> Approved(w.rows, w.sessions.tokens[jti].fid)
  {
    var w := World(rows, users, Initial(now));
    GateHoldsExactly(w, actions, |actions|);
    assert !Stray(RunTo(w, actions, |actions|), jti);
  }

  // ----- Deadlines that spare are enough -----

  /** Every token clients can use is in its commander's set, which outlives it. */
  ghost predicate AllTracked(s: State) {
    forall j | Usable(s, j) :: Tracked(s, j)
  }

  /** The deadline of a logout or a refresh spares every token that is revoked for good. */
  predicate Sparing(w: World, a: Action) {
    var s := w.sessions;
    match a
    case LogOut(fid, jti) => CanLogOut(s, fid, jti) ==> Spares(s, s.tokens[jti].exp)
    case RefreshToken(fid, jti, next, _) => CanRefresh(s, fid, jti, next) ==> Spares(s, s.tokens[jti].exp)
    case _ => true
  }

  /** A token that outlasts a sparing deadline was usable before. */
  lemma OutlastsUsable(s: State, jti: string, j: string)
    requires Calm(s) && jti in s.tokens && Spares(s, s.tokens[jti].exp) && Outlasts(s, jti, j)
    ensures Usable(s, j) && j != jti
  {
  }

  lemma LogInTracks(s: State, fid: string, jti: string, exp: int)
    requires Calm(s) && AllTracked(s) && exp <= s.now + DAY
    ensures AllTracked(Login(s, fid, jti, exp))
  {
    LoginUsable(s, fid, jti, exp);
    LoginEffect(s, fid, jti, exp);
  }

  lemma LogOutTracks(s: State, fid: string, jti: string)
    requires Calm(s) && AllTracked(s) && (CanLogOut(s, fid, jti) ==> Spares(s, s.tokens[jti].exp))
    ensures AllTracked(Logout(s, fid, jti))
  {
    LogoutUsable(s, fid, jti);
    LogoutEffect(s, fid, jti);
    if CanLogOut(s, fid, jti) {
      forall j | Outlasts(s, jti, j)
        ensures Tracked(Logout(s, fid, jti), j)
      {
        OutlastsUsable(s, jti, j);
      }
    }
  }

  lemma RefreshTracks(s: State, fid: string, jti: string, next: string, exp: int)
    requires Calm(s) && AllTracked(s) && exp <= s.now + DAY
    requires CanRefresh(s, fid, jti, next) ==> Spares(s, s.tokens[jti].exp)
    ensures AllTracked(Refresh(s, fid, jti, next, exp))
  {
    RefreshUsable(s, fid, jti, next, exp);
    RefreshEffect(s, fid, jti, next, exp);
    if CanRefresh(s, fid, jti, next) {
      forall j | Outlasts(s, jti, j)
        ensures Tracked(Refresh(s, fid, jti, next, exp), j)
      {
        OutlastsUsable(s, jti, j);
      }
    }
  }

  lemma RevokeAllTracks(s: State, fid: string, order: seq<string>)
    requires Calm(s) && AllTracked(s) && Items(order) == Members(s, fid)
    ensures AllTracked(RevokeAll(s, fid, order))
  {
    RevokeAllUsable(s, fid, order);
    RevokeAllEffect(s, fid, order);
  }

  predicate Mine(s: State, fid: string, j: string) {
    Usable(s, j) && s.tokens[j].fid == fid
  }

  /** A mass revocation leaves the commander no usable token exactly when it catches all
      of them, which it does where they are tracked. */
  lemma RevokeAllBarsExactly(s: State, fid: string, order: seq<string>)
    requires Calm(s) && Items(order) == Members(s, fid)
    ensures (forall j :: !Mine(RevokeAll(s, fid, order), fid, j))
       <==> forall j | Mine(s, fid, j) :: Caught(s, fid, j)
    ensures AllTracked(s) ==> forall j :: !Mine(RevokeAll(s, fid, order), fid, j)
  {
    RevokeAllUsable(s, fid, order);
    RevokeAllEffect(s, fid, order);
    forall j
      ensures Mine(RevokeAll(s, fid, order), fid, j) <==> Mine(s, fid, j) && !Caught(s, fid, j)
    {
    }
  }

  lemma WaitTracks(s: State, d: nat)
    requires Calm(s) && AllTracked(s)
    ensures AllTracked(Apply(s, Tick(d)))
  {
    WaitUsable(s, d);
  }

  lemma AdminTracks(w: World, fid: string, c: Change, order: seq<string>)
    requires Calm(w.sessions) && AllTracked(w.sessions) && (c.revokes ==> Enumerates(w, fid, order))
    ensures AllTracked(Admin(w, fid, c, order).sessions) && AdminKeeps(w, fid, c)
  {
    if c.revokes {
      RevokeAllTracks(w.sessions, fid, order);
    }
  }

  ghost predicate Orderly(w: World) {
    Calm(w.sessions) && Gate(w) && AllTracked(w.sessions)
  }

  lemma SparesGated(w: World, until: int)
    requires Gate(w) && Spares(w.sessions, until)
    ensures SparesUnapproved(w, until)
  {
    var s := w.sessions;
    forall j | j in s.delivered && Unexpired(s, j) && !Approved(w.rows, s.tokens[j].fid)
      ensures s.tokens[j].exp <= until
    {
      assert !Stray(w, j);
    }
  }

  lemma SparingTracks(w: World, a: Action)
    requires Orderly(w) && Timely(w, a) && Sparing(w, a)
    ensures AllTracked(Perform(w, a).sessions)
  {
    match a
    case Wait(d) => WaitTracks(w.sessions, d);
    case Regroup(_) =>
    case LogIn(fid, _, jti, exp, _, _) => LogInTracks(w.sessions, fid, jti, exp);
    case RefreshToken(fid, jti, next, exp) => RefreshTracks(w.sessions, fid, jti, next, exp);
    case LogOut(fid, jti) => LogOutTracks(w.sessions, fid, jti);
    case Grant(fid, group, f) => AdminTracks(w, fid, GrantChange(w.rows, w.users, fid, group, f), []);
    case Revoke(fid, f, order) => AdminTracks(w, fid, RevokeChange(w.rows, w.users, fid, f), order);
    case Link(fid, link, f, order) => AdminTracks(w, fid, LinkChange(w.rows, w.users, fid, link, f), order);
    case Unlink(fid, f, order) => AdminTracks(w, fid, UnlinkChange(w.rows, w.users, fid, f), order);
    case Approve(fid, f) => AdminTracks(w, fid, ApprovalChange(w.rows, w.users, fid, true, f), []);
    case Deny(fid, f, order) => AdminTracks(w, fid, ApprovalChange(w.rows, w.users, fid, false, f), order);
  }

  /** Mass revocations reach all there is, because every usable token is tracked. */
  lemma SparingKeeps(w: World, a: Action)
    requires Orderly(w) && Sparing(w, a)
    ensures Keeps(w, a)
  {
    var s := w.sessions;
    match a
    case LogOut(fid, jti) =>
      if CanLogOut(s, fid, jti) {
        SparesGated(w, s.tokens[jti].exp);
      }
    case RefreshToken(fid, jti, next, _) =>
      if CanRefresh(s, fid, jti, next) {
        SparesGated(w, s.tokens[jti].exp);
      }
    case _ =>
  }

  predicate SparingTo(w: World, actions: seq<Action>, n: nat)
    requires n <= |actions|
  {
    forall i | 0 <= i < n :: Sparing(RunTo(w, actions, i), actions[i])
  }

  /** Runs whose logouts and refreshes spare earlier revocations meet every condition. */
  lemma {:induction false} SparingRunKeeps(w: World, actions: seq<Action>, n: nat)
    requires Orderly(w) && TimelyRun(w, actions) && n <= |actions| && SparingTo(w, actions, n)
    ensures KeepsTo(w, actions, n) && Orderly(RunTo(w, actions, n))
  {
    if n > 0 {
      SparingRunKeeps(w, actions, n - 1);
      var before := RunTo(w, actions, n - 1);
      assert Timely(before, actions[n - 1]) && Sparing(before, actions[n - 1]);
      SparingActionKeeps(before, actions[n - 1]);
      GateToNext(w, actions, n);
    }
  }

  lemma SparingActionKeeps(w: World, a: Action)
    requires Orderly(w) && Timely(w, a) && Sparing(w, a)
    ensures Keeps(w, a) && Orderly(Perform(w, a))
  {
    SparingKeeps(w, a);
    SparingTracks(w, a);
    ActionKeepsExactly(w, a);
  }

  // ----- A run in which a logout lets a denied commander back in -----

  const NO_FAULTS := Faults(false, false, false, {}, false, false)

  /** An approved commander linked to a member of edin-copilot. */
  predicate Enrolled(w: World, fid: string) {
    && fid in w.rows && w.rows[fid].approved && Linked(w.rows[fid]) && w.rows[fid].link.value in w.users
    && w.users[w.rows[fid].link.value] == ["edin-copilot"]
  }

  lemma EnrolledMayLogIn(w: World, fid: string)
    requires Enrolled(w, fid)
    ensures Decide(w.rows, w.users, fid, Up, Up).Allowed?
  {
    AllowedExactly(w.rows, w.users, fid, Up, Up);
    assert "galaxy_read" in GroupScopes(w.users[w.rows[fid].link.value][0]);
  }

  lemma EnrolledLogin(w: World, fid: string, jti: string, exp: int)
    requires Calm(w.sessions) && Enrolled(w, fid) && jti !in w.sessions.tokens && exp <= w.sessions.now + DAY
    ensures var t := Perform(w, LogIn(fid, None, jti, exp, Up, Up));
            && t.rows == w.rows && t.users == w.users && Calm(t.sessions)
            && LoggedIn(w.sessions, t.sessions, fid, jti, exp)
  {
    EnrolledMayLogIn(w, fid);
    assert Upserted(w.rows, fid, None) == w.rows;
    LoginUsable(w.sessions, fid, jti, exp);
    LoginEffect(w.sessions, fid, jti, exp);
  }

  /** The token has reached its commander's client. */
  predicate Held(s: State, fid: string, jti: string, exp: int) {
    jti in s.delivered && jti in s.tokens && s.tokens[jti] == Token(fid, exp)
  }

  /** f holds a, g holds b, and nothing is revoked. */
  ghost predicate BothHold(w: World, f: string, g: string, a: string, b: string, ea: int, eb: int) {
    && Calm(w.sessions) && g in w.rows && w.sessions.revoked == GONE && Members(w.sessions, g) == {b}
    && Held(w.sessions, f, a, ea) && Held(w.sessions, g, b, eb)
  }

  lemma TwoLogIn(w: World, f: string, g: string, a: string, b: string, ea: int, eb: int)
    requires Calm(w.sessions) && w.sessions.revoked == GONE && TrackingSet(w.sessions, g) == GONE
    requires f != g && a != b && Enrolled(w, f) && Enrolled(w, g)
    requires a !in w.sessions.tokens && b !in w.sessions.tokens
    requires w.sessions.now < ea < eb <= w.sessions.now + DAY
    ensures var t := Perform(Perform(w, LogIn(f, None, a, ea, Up, Up)), LogIn(g, None, b, eb, Up, Up));
            BothHold(t, f, g, a, b, ea, eb) && t.sessions.now == w.sessions.now
  {
    EnrolledLogin(w, f, a, ea);
    EnrolledLogin(Perform(w, LogIn(f, None, a, ea, Up, Up)), g, b, eb);
  }

  /** f holds a, g holds b, and g has been denied. */
  ghost predicate AfterDenial(w: World, f: string, g: string, a: string, b: string, ea: int, eb: int) {
    && Calm(w.sessions) && !Approved(w.rows, g) && w.sessions.revoked == RSet({b}, Some(w.sessions.now + DAY))
    && Held(w.sessions, f, a, ea) && Held(w.sessions, g, b, eb)
  }

  /** A denial of g revokes b for a day. */
  lemma DenyRevokes(w: World, f: string, g: string, a: string, b: string, ea: int, eb: int)
    requires BothHold(w, f, g, a, b, ea, eb)
    ensures var t := Perform(w, Deny(g, NO_FAULTS, [b]));
            AfterDenial(t, f, g, a, b, ea, eb) && t.sessions.now == w.sessions.now
  {
    assert [b][0] in Items([b]) && Items([b]) == {b};
    RevokeAllUsable(w.sessions, g, [b]);
    RevokeAllEffect(w.sessions, g, [b]);
    assert RevokedTo(GONE, [b], 0, w.sessions.now + DAY, w.sessions.now, AllFine(1)) == GONE;
  }

  /** Validate accepts the token of a commander who is not approved. */
  ghost predicate Reopened(w: World, g: string, b: string) {
    Accepts(w.sessions, b) && w.sessions.tokens[b].fid == g && !Approved(w.rows, g)
  }

  lemma LogoutShortens(w: World, f: string, g: string, a: string, b: string, ea: int, eb: int)
    requires AfterDenial(w, f, g, a, b, ea, eb) && w.sessions.now < ea < eb && a != b
    ensures var end := Perform(Perform(w, LogOut(f, a)), Wait(ea - w.sessions.now));
            Reopened(end, g, b)
  {
    LogoutEffect(w.sessions, f, a);
  }

  /** f and g log in, g is denied, f logs out, and everybody waits until f's token ends. */
  function ReopeningRun(f: string, g: string, a: string, b: string, now: int, ea: int, eb: int): seq<Action>
    requires now <= ea
  {
    [LogIn(f, None, a, ea, Up, Up), LogIn(g, None, b, eb, Up, Up), Deny(g, NO_FAULTS, [b]),
     LogOut(f, a), Wait(ea - now)]
  }

  lemma ReopensStepByStep(w: World, f: string, g: string, a: string, b: string, ea: int, eb: int)
    requires Calm(w.sessions) && w.sessions.revoked == GONE && TrackingSet(w.sessions, g) == GONE
    requires f != g && a != b && Enrolled(w, f) && Enrolled(w, g)
    requires a !in w.sessions.tokens && b !in w.sessions.tokens
    requires w.sessions.now < ea < eb <= w.sessions.now + DAY
    ensures var denied := Perform(Perform(Perform(w, LogIn(f, None, a, ea, Up, Up)), LogIn(g, None, b, eb, Up, Up)),
                                  Deny(g, NO_FAULTS, [b]));
            Reopened(Perform(Perform(denied, LogOut(f, a)), Wait(ea - w.sessions.now)), g, b)
  {
    TwoLogIn(w, f, g, a, b, ea, eb);
    var held := Perform(Perform(w, LogIn(f, None, a, ea, Up, Up)), LogIn(g, None, b, eb, Up, Up));
    DenyRevokes(held, f, g, a, b, ea, eb);
    LogoutShortens(Perform(held, Deny(g, NO_FAULTS, [b])), f, g, a, b, ea, eb);
  }

  lemma RunOfFive(w: World, actions: seq<Action>)
    requires |actions| == 5
    ensures RunTo(w, actions, 5) ==
            Perform(Perform(Perform(Perform(Perform(w, actions[0]), actions[1]), actions[2]), actions[3]), actions[4])
  {
    assert RunTo(w, actions, 1) == Perform(RunTo(w, actions, 0), actions[0]);
    assert RunTo(w, actions, 3) == Perform(RunTo(w, actions, 2), actions[2]);
    assert RunTo(w, actions, 4) == Perform(RunTo(w, actions, 3), actions[3]);
  }

  /** A logout can shorten the life of the whole revoked set: when f logs out after g
      was denied, the set ends with f's token, and from then on Validate accepts
      the token of g again although g is not approved. */
  lemma LogoutReopensDenied(rows: Rows, users: Directory, f: string, g: string, a: string, b: string,
        now: int, ea: int, eb: int)
    requires f != g && a != b && now < ea < eb <= now + DAY
    requires Enrolled(World(rows, users, Initial(now)), f) && Enrolled(World(rows, users, Initial(now)), g)
    ensures var end := RunTo(World(rows, users, Initial(now)), ReopeningRun(f, g, a, b, now, ea, eb), 5);
            Reopened(end, g, b)
  {
    var w := World(rows, users, Initial(now));
    ReopensStepByStep(w, f, g, a, b, ea, eb);
    RunOfFive(w, ReopeningRun(f, g, a, b, now, ea, eb));
  }
}
