/** Linking a commander to a shadow Authentik user, any call of any callback
    failing before or after it took effect: internal/httpapi/commander_linking.go,
    internal/authentik/shadow.go. */
module CommanderLinking {
  import opened Basics

  type Uuid = string

  const NIL_UUID: Uuid := ""

  /** Authentik users by name, and the link column of each commander row. */
  datatype Accounts = Accounts(users: map<string, Uuid>, links: map<string, Option<Uuid>>)

  /** How ensureCommanderLink ends, after the UpsertCommander before it. */
  datatype Outcome =
    | AlreadyLinked | LinkCreated | UpsertFailed | ReadFailed | RowMissing | ShadowFailed | PersistFailed

  /** The next call of a callback. */
  datatype Phase =
    | Upserting
    | Reading
    | Creating
    | Finding
    | Linking(id: Uuid)
    | Ended(outcome: Outcome)

  /** Fine, failed without effect, or failed although it took effect. */
  datatype Fault = Fine | Lost | Late

  predicate IsLinked(a: Accounts, fid: string) {
    fid in a.links && a.links[fid].Some?
  }

  predicate HeldByOther(a: Accounts, fid: string, id: Uuid) {
    exists other | other in a.links :: other != fid && a.links[other] == Some(id)
  }

  /** SetAuthentikLink: no row, a link that another row holds, or the new link. */
  function SetLink(a: Accounts, fid: string, id: Uuid): Option<Accounts> {
    if fid !in a.links || HeldByOther(a, fid, id) then None
    else Some(a.(links := a.links[fid := Some(id)]))
  }

  predicate New(a: Accounts, id: Uuid) {
    id != NIL_UUID && id !in a.users.Values && forall fid | fid in a.links :: a.links[fid] != Some(id)
  }

  /** One call. `newId` is what Authentik would give a new user. */
  function Call(a: Accounts, fid: string, phase: Phase, fault: Fault, newId: Uuid): (Accounts, Phase) {
    match phase
    case Upserting =>
      var upserted := if fid in a.links then a else a.(links := a.links[fid := None]);
      if fault.Lost? then (a, Ended(UpsertFailed))
      else if fault.Late? then (upserted, Ended(UpsertFailed))
      else (upserted, Reading)
    case Reading =>
      if !fault.Fine? then (a, Ended(ReadFailed))
      else if fid !in a.links then (a, Ended(RowMissing))
      else if a.links[fid].Some? then (a, Ended(AlreadyLinked))
      else (a, Creating)
    case Creating =>
      if fid == "" || fault.Lost? then (a, Ended(ShadowFailed))
      else if fid in a.users then (a, if fault.Late? then Ended(ShadowFailed) else Finding)
      else
        var created := a.(users := a.users[fid := newId]);
        (created, if fault.Late? then Ended(ShadowFailed) else Linking(newId))
    case Finding =>
      if !fault.Fine? || fid !in a.users then (a, Ended(ShadowFailed)) else (a, Linking(a.users[fid]))
    case Linking(id) =>
      var linked := SetLink(a, fid, id);
      if fault.Lost? || linked.None? then (a, Ended(PersistFailed))
      else (linked.value, Ended(if fault.Late? then PersistFailed else LinkCreated))
    case Ended(_) => (a, phase)
  }

  function Rank(phase: Phase): nat {
    match phase
    case Upserting => 5
    case Reading => 4
    case Creating => 3
    case Finding => 2
    case Linking(_) => 1
    case Ended(_) => 0
  }

  lemma CallAdvances(a: Accounts, fid: string, phase: Phase, fault: Fault, newId: Uuid)
    ensures phase.Ended? || Rank(Call(a, fid, phase, fault, newId).1) < Rank(phase)
  {
  }

  // ----- Callbacks side by side -----

  /** `clean` until one of its own calls fails. */
  datatype Callback = Callback(fid: string, phase: Phase, clean: bool)

  datatype State = State(accounts: Accounts, callbacks: seq<Callback>)

  /** A step of an administrator or another program may add Authentik users. */
  datatype Step =
    | Arrive(fid: string)
    | Proceed(c: nat, fault: Fault, newId: Uuid)
    | OtherUser(name: string, newId: Uuid)

  function Apply(s: State, step: Step): State {
    match step
    case Arrive(fid) => s.(callbacks := s.callbacks + [Callback(fid, Upserting, true)])
    case Proceed(c, fault, newId) =>
      if c >= |s.callbacks| || !New(s.accounts, newId) then s
      else
        var cb := s.callbacks[c];
        var r := Call(s.accounts, cb.fid, cb.phase, fault, newId);
        State(r.0, s.callbacks[c := Callback(cb.fid, r.1, cb.clean && (fault.Fine? || cb.phase.Ended?))])
    case OtherUser(name, newId) =>
      if name in s.accounts.users || !New(s.accounts, newId) then s
      else s.(accounts := s.accounts.(users := s.accounts.users[name := newId]))
  }

  /** A callback arrives, makes its next call, which leaves it clean unless it failed, or
      somebody else adds a user. */
  lemma StepsExactly(s: State, fid: string, c: nat, fault: Fault, newId: Uuid)
    ensures Apply(s, Arrive(fid)) == State(s.accounts, s.callbacks + [Callback(fid, Upserting, true)])
    ensures var after := Apply(s, Proceed(c, fault, newId));
            if c < |s.callbacks| && New(s.accounts, newId) then
              var cb := s.callbacks[c];
              && |after.callbacks| == |s.callbacks|
              && (forall d | 0 <= d < |s.callbacks| && d != c :: after.callbacks[d] == s.callbacks[d])
              && after.callbacks[c].fid == cb.fid
              && (after.callbacks[c].clean <==> cb.clean && (fault == Fine || cb.phase.Ended?))
              && (after.accounts, after.callbacks[c].phase) == Call(s.accounts, cb.fid, cb.phase, fault, newId)
            else after == s
    ensures Apply(s, OtherUser(fid, newId))
         == if fid !in s.accounts.users && New(s.accounts, newId) then
              State(Accounts(s.accounts.users[fid := newId], s.accounts.links), s.callbacks)
            else s
  {
  }

  function RunTo(s: State, steps: seq<Step>, n: nat): State
    requires n <= |steps|
  {
    if n == 0 then s else Apply(RunTo(s, steps, n - 1), steps[n - 1])
  }

  /** Authentik gives every user an id of its own. */
  predicate DistinctIds(users: map<string, Uuid>) {
    && (forall x | x in users :: users[x] != NIL_UUID)
    && (forall x, y | x in users && y in users && x != y :: users[x] != users[y])
  }

  /** Every link is the id of the user named by that FID. */
  predicate LinksByName(a: Accounts) {
    forall fid | fid in a.links && a.links[fid].Some? :: fid in a.users && a.links[fid] == Some(a.users[fid])
  }

  predicate CallbackOk(a: Accounts, cb: Callback) {
    match cb.phase
    case Upserting => true
    case Reading => HasRow(a, cb)
    case Creating => HasRow(a, cb)
    case Finding => HasRow(a, cb) && cb.fid in a.users
    case Linking(id) => HasRow(a, cb) && cb.fid in a.users && a.users[cb.fid] == id
    case Ended(outcome) =>
      && (outcome.LinkCreated? || outcome.AlreadyLinked? ==> IsLinked(a, cb.fid))
      && (cb.clean && cb.fid != "" ==> IsLinked(a, cb.fid))
  }

  predicate HasRow(a: Accounts, cb: Callback) {
    cb.fid in a.links
  }

  predicate Inv(s: State) {
    && DistinctIds(s.accounts.users)
    && LinksByName(s.accounts)
    && forall c | 0 <= c < |s.callbacks| :: CallbackOk(s.accounts, s.callbacks[c])
  }

  /** Users and links are only ever added. */
  predicate Extends(a: Accounts, b: Accounts) {
    && (forall x | x in a.users :: x in b.users && b.users[x] == a.users[x])
    && (forall fid | fid in a.links :: fid in b.links && (a.links[fid].Some? ==> b.links[fid] == a.links[fid]))
  }

  lemma OtherCallbackOk(a: Accounts, b: Accounts, cb: Callback)
    requires CallbackOk(a, cb) && Extends(a, b)
    ensures CallbackOk(b, cb)
  {
  }

  lemma CreationKeeps(a: Accounts, name: string, id: Uuid)
    requires DistinctIds(a.users) && LinksByName(a) && New(a, id) && name !in a.users
    ensures var b := a.(users := a.users[name := id]);
            DistinctIds(b.users) && LinksByName(b) && Extends(a, b)
  {
    assert forall x | x in a.users :: a.users[x] in a.users.Values;
  }

  lemma CallKeepsAccounts(a: Accounts, cb: Callback, fault: Fault, newId: Uuid)
    requires DistinctIds(a.users) && LinksByName(a) && CallbackOk(a, cb) && New(a, newId)
    ensures var b := Call(a, cb.fid, cb.phase, fault, newId).0;
            DistinctIds(b.users) && LinksByName(b) && Extends(a, b)
  {
    if cb.phase.Creating? && cb.fid !in a.users {
      CreationKeeps(a, cb.fid, newId);
    }
  }

  lemma CallKeeps(a: Accounts, cb: Callback, fault: Fault, newId: Uuid)
    requires DistinctIds(a.users) && LinksByName(a) && CallbackOk(a, cb)
    ensures var r := Call(a, cb.fid, cb.phase, fault, newId);
            CallbackOk(r.0, Callback(cb.fid, r.1, cb.clean && (fault.Fine? || cb.phase.Ended?)))
  {
  }

  lemma StepKeeps(s: State, step: Step)
    requires Inv(s)
    ensures Inv(Apply(s, step)) && Extends(s.accounts, Apply(s, step).accounts)
  {
    var t := Apply(s, step);
    match step
    case Arrive(fid) =>
    case Proceed(c, fault, newId) =>
      if t != s {
        CallKeepsAccounts(s.accounts, s.callbacks[c], fault, newId);
        CallKeeps(s.accounts, s.callbacks[c], fault, newId);
        EachOk(s, t);
      }
    case OtherUser(name, newId) =>
      if t != s {
        CreationKeeps(s.accounts, name, newId);
        EachOk(s, t);
      }
  }

  lemma EachOk(s: State, t: State)
    requires Inv(s) && Extends(s.accounts, t.accounts) && |s.callbacks| == |t.callbacks|
    requires forall c | 0 <= c < |s.callbacks| ::
               t.callbacks[c] == s.callbacks[c] || CallbackOk(t.accounts, t.callbacks[c])
    ensures forall c | 0 <= c < |t.callbacks| :: CallbackOk(t.accounts, t.callbacks[c])
  {
    forall c | 0 <= c < |t.callbacks|
      ensures CallbackOk(t.accounts, t.callbacks[c])
    {
      if t.callbacks[c] == s.callbacks[c] {
        OtherCallbackOk(s.accounts, t.accounts, s.callbacks[c]);
      }
    }
  }

  lemma {:induction false} RunKeeps(s: State, steps: seq<Step>, n: nat, k: nat)
    requires Inv(s) && k <= n <= |steps|
    ensures Inv(RunTo(s, steps, n))
    ensures Extends(RunTo(s, steps, k).accounts, RunTo(s, steps, n).accounts)
  {
    if k < n {
      RunKeeps(s, steps, n - 1, k);
      StepKeeps(RunTo(s, steps, n - 1), steps[n - 1]);
    } else if n > 0 {
      RunKeeps(s, steps, n - 1, n - 1);
      StepKeeps(RunTo(s, steps, n - 1), steps[n - 1]);
    }
  }

  function Initial(users: map<string, Uuid>): State {
    State(Accounts(users, map[]), [])
  }

  /** Whatever fails and however callbacks interleave: a link is the id of the one
      user named by that FID, no two commanders share one, and a link once set
      never changes. */
  lemma LinksAreStable(users: map<string, Uuid>, steps: seq<Step>, k: nat, f: string, g: string)
    requires DistinctIds(users) && k <= |steps|
    requires IsLinked(RunTo(Initial(users), steps, k).accounts, f)
    ensures var earlier := RunTo(Initial(users), steps, k).accounts;
            var end := RunTo(Initial(users), steps, |steps|).accounts;
            && IsLinked(end, f) && end.links[f] == earlier.links[f]
            && f in end.users && end.links[f] == Some(end.users[f])
            && (g in end.links && end.links[g] == end.links[f] ==> g == f)
  {
    RunKeeps(Initial(users), steps, |steps|, k);
  }

  /** A callback none of whose calls failed ends with its commander linked, even
      where an earlier one created the user and lost the row write. */
  lemma CleanCallbackLinks(users: map<string, Uuid>, steps: seq<Step>, c: nat)
    requires DistinctIds(users) && c < |RunTo(Initial(users), steps, |steps|).callbacks|
    ensures var end := RunTo(Initial(users), steps, |steps|);
            var cb := end.callbacks[c];
            cb.phase.Ended? && cb.clean && cb.fid != "" ==> IsLinked(end.accounts, cb.fid)
  {
    RunKeeps(Initial(users), steps, |steps|, 0);
    var end := RunTo(Initial(users), steps, |steps|);
    assert CallbackOk(end.accounts, end.callbacks[c]);
  }

  // ----- One callback on its own -----

  /** How each call of one callback goes. */
  datatype Faults = Faults(upsert: Fault, read: Fault, create: Fault, find: Fault, link: Fault)

  const NO_FAULTS := Faults(Fine, Fine, Fine, Fine, Fine)

  function FaultAt(f: Faults, phase: Phase): Fault {
    match phase
    case Upserting => f.upsert
    case Reading => f.read
    case Creating => f.create
    case Finding => f.find
    case Linking(_) => f.link
    case Ended(_) => Fine
  }

  /** The calls from this phase to the end, nothing in between. */
  function Alone(a: Accounts, fid: string, phase: Phase, f: Faults, newId: Uuid): (Accounts, Outcome)
    decreases Rank(phase)
  {
    if phase.Ended? then (a, phase.outcome) else
    var r := Call(a, fid, phase, FaultAt(f, phase), newId);
    Alone(r.0, fid, r.1, f, newId)
  }

  /** From any state administrators may have left, one callback without failure
      links its commander exactly when it was linked already or nobody else holds
      the user of that name. */
  lemma HealsExactly(a: Accounts, fid: string, newId: Uuid)
    requires fid != "" && New(a, newId)
    ensures IsLinked(Alone(a, fid, Upserting, NO_FAULTS, newId).0, fid)
       <==> IsLinked(a, fid) || fid !in a.users || !HeldByOther(a, fid, a.users[fid])
  {
    var u := Call(a, fid, Upserting, Fine, newId);
    SameHolders(a, u.0, fid, newId);
    if fid in a.users {
      SameHolders(a, u.0, fid, a.users[fid]);
    }
  }

  lemma SameHolders(a: Accounts, b: Accounts, fid: string, id: Uuid)
    requires b.links == a.links || (fid !in a.links && b.links == a.links[fid := None])
    ensures HeldByOther(b, fid, id) <==> HeldByOther(a, fid, id)
  {
    if other :| other in a.links && other != fid && a.links[other] == Some(id) {
      assert other in b.links && b.links[other] == Some(id);
    }
    if other :| other in b.links && other != fid && b.links[other] == Some(id) {
      assert other in a.links && a.links[other] == Some(id);
    }
  }

  /** How a callback ends after its upsert, and what it leaves: each failure under its
      guard, the user it made where the name was free, the link where nobody else held
      the user and the write took effect. */
  lemma EnsureExactly(a: Accounts, fid: string, f: Faults, newId: Uuid)
    ensures var (b, outcome) := Alone(a, fid, Reading, f, newId);
            var open := f.read.Fine? && fid in a.links && a.links[fid].None?;
            var made := open && fid != "" && !f.create.Lost? && fid !in a.users;
            var got := if fid in a.users then open && fid != "" && f.create.Fine? && f.find.Fine?
                       else made && f.create.Fine?;
            var id := if fid in a.users then a.users[fid] else newId;
            var held := exists other | other in a.links :: other != fid && a.links[other] == Some(id);
            && (outcome == ReadFailed <==> !f.read.Fine?)
            && (outcome == RowMissing <==> f.read.Fine? && fid !in a.links)
            && (outcome == AlreadyLinked <==> f.read.Fine? && fid in a.links && a.links[fid].Some?)
            && (outcome == ShadowFailed <==> open && !got)
            && (outcome == PersistFailed <==> got && (held || !f.link.Fine?))
            && (outcome == LinkCreated <==> got && !held && f.link.Fine?)
            && b.users == (if made then a.users[fid := newId] else a.users)
            && b.links == (if got && !held && !f.link.Lost? then a.links[fid := Some(id)] else a.links)
  {
    var r := Call(a, fid, Reading, f.read, newId);
    if r.1.Creating? {
      CreatingExactly(a, fid, f, newId);
    }
  }

  lemma CreatingExactly(a: Accounts, fid: string, f: Faults, newId: Uuid)
    requires fid in a.links
    ensures var (b, outcome) := Alone(a, fid, Creating, f, newId);
            var made := fid != "" && !f.create.Lost? && fid !in a.users;
            var got := if fid in a.users then fid != "" && f.create.Fine? && f.find.Fine? else made && f.create.Fine?;
            var id := if fid in a.users then a.users[fid] else newId;
            && b.users == (if made then a.users[fid := newId] else a.users)
            && (if !got then outcome == ShadowFailed && b.links == a.links else
                if f.link.Lost? || HeldByOther(a, fid, id) then outcome == PersistFailed && b.links == a.links
                else outcome == (if f.link.Late? then PersistFailed else LinkCreated)
                     && b.links == a.links[fid := Some(id)])
  {
    var r := Call(a, fid, Creating, f.create, newId);
    if r.1.Finding? {
      var q := Call(r.0, fid, Finding, f.find, newId);
      if q.1.Linking? {
        LinkingExactly(q.0, fid, q.1.id, f, newId);
      }
    } else if r.1.Linking? {
      LinkingExactly(r.0, fid, r.1.id, f, newId);
    }
  }

  lemma LinkingExactly(a: Accounts, fid: string, id: Uuid, f: Faults, newId: Uuid)
    requires fid in a.links
    ensures Alone(a, fid, Linking(id), f, newId)
         == if f.link.Lost? || HeldByOther(a, fid, id) then (a, PersistFailed)
            else (a.(links := a.links[fid := Some(id)]), if f.link.Late? then PersistFailed else LinkCreated)
  {
    var r := Call(a, fid, Linking(id), f.link, newId);
    assert Alone(r.0, fid, r.1, f, newId) == (r.0, r.1.outcome);
  }

  /** The upsert makes the row where it takes effect, and only then goes on. */
  lemma UpsertExactly(a: Accounts, fid: string, fault: Fault, newId: Uuid)
    ensures var (b, phase) := Call(a, fid, Upserting, fault, newId);
            && phase == (if fault.Fine? then Reading else Ended(UpsertFailed)) && b.users == a.users
            && b.links == (if fault.Lost? || fid in a.links then a.links else a.links[fid := None])
  {
  }

  class LinkServer {
    var users: map<string, Uuid>
    var links: map<string, Option<Uuid>>

    ghost function Contents(): Accounts
      reads this
    {
      Accounts(users, links)
    }

    constructor (users: map<string, Uuid>, links: map<string, Option<Uuid>>)
      ensures Contents() == Accounts(users, links)
    {
      this.users, this.links := users, links;
    }

    /** CreateShadowUser: create, or look up the user that already has the name. */
    method CreateShadowUser(fid: string, newId: Uuid, f: Faults) returns (id: Option<Uuid>)
      modifies `users
      ensures var created := Call(old(Contents()), fid, Creating, f.create, newId);
              var found := if created.1.Finding? then Call(created.0, fid, Finding, f.find, newId) else created;
              Contents() == found.0 && id == if found.1.Linking? then Some(found.1.id) else None
    {
      if fid == "" || f.create.Lost? {
        return None;
      }
      if fid !in users {
        users := users[fid := newId];
        return if f.create.Late? then None else Some(newId);
      }
      if f.create.Late? || !f.find.Fine? {
        return None;
      }
      id := Some(users[fid]);
    }

    /** ensureCommanderLink: whether it got as far as the row write, and its error. */
    method EnsureCommanderLink(fid: string, newId: Uuid, f: Faults) returns (createdShadow: bool, outcome: Outcome)
      modifies this
      ensures (Contents(), outcome) == Alone(old(Contents()), fid, Reading, f, newId)
      ensures createdShadow <==> outcome.LinkCreated? || outcome.PersistFailed?
    {
      if !f.read.Fine? {
        return false, Outcome.ReadFailed;
      }
      if fid !in links {
        return false, RowMissing;
      }
      if links[fid].Some? {
        return false, AlreadyLinked;
      }
      var id := CreateShadowUser(fid, newId, f);
      if id.None? {
        return false, ShadowFailed;
      }
      ghost var created := Contents();
      if f.link.Lost? || (exists other | other in links :: other != fid && links[other] == id) {
        assert Call(created, fid, Linking(id.value), f.link, newId) == (created, Ended(PersistFailed));
        return true, PersistFailed;
      }
      links := links[fid := id];
      return true, if f.link.Late? then PersistFailed else LinkCreated;
    }
  }
}
