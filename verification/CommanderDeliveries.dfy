/** When a token is safe at its delivery, told by the calls of the handler that delivers
    it: internal/httpapi/commander_auth.go. */
module CommanderDeliveries {
  import opened RedisSets
  import opened CommanderSessions
  import opened CommanderTracking

  // ----- What the calls of a handler did -----

  /** The last SADD of a new token by the handler of fid succeeded. */
  predicate Added(s: State, steps: seq<Step>, n: nat, fid: string)
    requires n <= |steps|
  {
    if n == 0 then false else
    var h, step := HandlerOf(RunTo(s, steps, n - 1), fid), steps[n - 1];
    if step.Continue? && step.fid == fid && (h.Track? || h.TrackNext?) then step.ok
    else Added(s, steps, n - 1, fid)
  }

  /** EXPIRE gives the set a day, or leaves it the lifetime it has, and that outlives the token. */
  predicate Lasts(s: State, fid: string, jti: string, ok: bool)
    requires jti in s.tokens
  {
    var exp, deadline := s.tokens[jti].exp, TrackingSet(s, fid).deadline;
    if ok then exp <= s.now + DAY else deadline.None? || exp <= deadline.value
  }

  /** At the last EXPIRE by the handler of fid the SADD before it had succeeded, the key
      was still there, and it lasts. */
  predicate Held(s: State, steps: seq<Step>, n: nat, fid: string)
    requires n <= |steps|
  {
    if n == 0 then false else
    var before, step := RunTo(s, steps, n - 1), steps[n - 1];
    var h := HandlerOf(before, fid);
    if step.Continue? && step.fid == fid && h.Renew? then
      Added(s, steps, n - 1, fid) && Members(before, fid) != {}
      && h.jti in before.tokens && Lasts(before, fid, h.jti, step.ok)
    else Held(s, steps, n - 1, fid)
  }

  // ----- Who owns what -----

  /** The token belongs to fid and nobody has revoked it. */
  predicate New(s: State, fid: string, jti: string) {
    Owns(s, fid, jti) && jti !in s.revoked.members
  }

  predicate FollowKept(s: State, fid: string, jti: string, follow: FollowUp) {
    && Owns(s, fid, jti)
    && match follow
       case Rotate(next) => New(s, fid, next) && next != jti
       case Forget => true
       case Rest(todo) => forall i | 0 <= i < |todo| :: Owns(s, fid, todo[i])
  }

  predicate HandlerKept(s: State, fid: string, h: Handler) {
    match h
    case Track(jti) => New(s, fid, jti)
    case Renew(jti) => New(s, fid, jti)
    case Deliver(jti) => New(s, fid, jti)
    case RevokeAdd(jti, _, follow) => FollowKept(s, fid, jti, follow)
    case RevokeDate(jti, _, follow) => FollowKept(s, fid, jti, follow)
    case TrackNext(prior, next) => New(s, fid, next) && next != prior
    case UntrackOld(prior, next) => New(s, fid, next) && next != prior
    case _ => true
  }

  predicate SetKept(s: State, fid: string) {
    forall x | x in TrackingSet(s, fid).members :: Owns(s, fid, x)
  }

  /** Sets hold their commander's tokens, and handlers revoke and deliver their own. */
  ghost predicate Kept(s: State) {
    && (forall x | x in s.revoked.members :: x in s.tokens)
    && (forall x | x in s.delivered :: x in s.tokens)
    && (forall fid :: SetKept(s, fid) && HandlerKept(s, fid, HandlerOf(s, fid)))
  }

  /** A step of the handler of fid, as the others see it: what it revokes is its own. */
  ghost predicate Apart(s: State, t: State, fid: string) {
    && t.now == s.now
    && (forall j | j in s.tokens :: j in t.tokens && t.tokens[j] == s.tokens[j])
    && (forall x | x in t.revoked.members && x !in s.revoked.members :: Owns(s, fid, x))
    && (forall g | g != fid :: TrackingSet(t, g) == TrackingSet(s, g) && HandlerOf(t, g) == HandlerOf(s, g))
  }

  lemma AdvanceIsApart(s: State, fid: string, ok: bool)
    requires HandlerKept(s, fid, HandlerOf(s, fid))
    ensures Apart(s, Advance(s, fid, ok), fid) && Advance(s, fid, ok).tokens == s.tokens
  {
  }

  lemma AdvanceKeepsHandler(s: State, fid: string, ok: bool)
    requires HandlerKept(s, fid, HandlerOf(s, fid))
    ensures var t := Advance(s, fid, ok);
            HandlerKept(t, fid, HandlerOf(t, fid))
  {
  }

  lemma AdvanceKeepsSet(s: State, fid: string, ok: bool)
    requires HandlerKept(s, fid, HandlerOf(s, fid)) && SetKept(s, fid)
    ensures SetKept(Advance(s, fid, ok), fid)
  {
    var t := Advance(s, fid, ok);
    forall x | x in TrackingSet(t, fid).members
      ensures Owns(t, fid, x)
    {
      assert x in TrackingSet(s, fid).members || New(s, fid, x);
    }
  }

  lemma SameSetKept(s: State, t: State, fid: string)
    requires SetKept(s, fid) && TrackingSet(t, fid) == TrackingSet(s, fid)
    requires forall j | j in s.tokens :: j in t.tokens && t.tokens[j] == s.tokens[j]
    ensures SetKept(t, fid)
  {
    forall x | x in TrackingSet(t, fid).members
      ensures Owns(t, fid, x)
    {
      assert x in TrackingSet(s, fid).members;
    }
  }

  lemma AdvanceKeepsDelivered(s: State, fid: string, ok: bool)
    requires HandlerKept(s, fid, HandlerOf(s, fid))
    requires forall x | x in s.delivered :: x in s.tokens
    ensures forall x | x in Advance(s, fid, ok).delivered :: x in s.tokens
  {
  }

  predicate Begins(step: Step) {
    step.BeginLogin? || step.BeginRefresh? || step.BeginLogout? || step.BeginRevokeAll?
  }

  lemma BeginIsKept(s: State, step: Step)
    requires Kept(s) && Begins(step)
    ensures var t := Apply(s, step);
            && Apart(s, t, step.fid) && t.revoked == s.revoked && t.delivered == s.delivered
            && TrackingSet(t, step.fid) == TrackingSet(s, step.fid) && HandlerKept(t, step.fid, HandlerOf(t, step.fid))
  {
    var t := Apply(s, step);
    assert HandlerKept(s, step.fid, HandlerOf(s, step.fid)) && SetKept(s, step.fid);
    if step.BeginRevokeAll? {
      forall i | 0 <= i < |step.order| && Items(step.order) == Members(s, step.fid)
        ensures Owns(s, step.fid, step.order[i])
      {
        assert step.order[i] in Items(step.order);
      }
    }
  }

  lemma OthersKept(s: State, t: State, fid: string)
    requires Kept(s) && Apart(s, t, fid)
    ensures forall g | g != fid :: SetKept(t, g) && HandlerKept(t, g, HandlerOf(t, g))
  {
    forall g | g != fid
      ensures SetKept(t, g) && HandlerKept(t, g, HandlerOf(t, g))
    {
      assert HandlerKept(s, g, HandlerOf(s, g));
      SameSetKept(s, t, g);
    }
  }

  lemma StepIsKept(s: State, step: Step)
    requires Kept(s)
    ensures Kept(Apply(s, step))
  {
    var t := Apply(s, step);
    match step
    case Tick(_) =>
      forall fid
        ensures SetKept(t, fid) && HandlerKept(t, fid, HandlerOf(t, fid))
      {
        assert HandlerKept(s, fid, HandlerOf(s, fid));
        SameSetKept(s, t, fid);
      }
    case Crash(fid) =>
      SameSetKept(s, t, fid);
      OthersKept(s, t, fid);
    case Continue(fid, ok) =>
      assert SetKept(s, fid) && HandlerKept(s, fid, HandlerOf(s, fid));
      AdvanceIsApart(s, fid, ok);
      AdvanceKeepsHandler(s, fid, ok);
      AdvanceKeepsSet(s, fid, ok);
      AdvanceKeepsDelivered(s, fid, ok);
      OthersKept(s, t, fid);
    case _ =>
      BeginIsKept(s, step);
      SameSetKept(s, t, step.fid);
      OthersKept(s, t, step.fid);
  }

  lemma {:induction false} RunIsKept(now: int, steps: seq<Step>, n: nat)
    requires n <= |steps|
    ensures Kept(RunTo(Initial(now), steps, n))
  {
    if n > 0 {
      RunIsKept(now, steps, n - 1);
      StepIsKept(RunTo(Initial(now), steps, n - 1), steps[n - 1]);
    }
  }

  // ----- The calls tell whether the token is tracked -----

  /** What the calls so far tell about the set of fid. */
  predicate Told(s: State, fid: string, added: bool, held: bool) {
    match HandlerOf(s, fid)
    case Track(jti) => jti !in Members(s, fid)
    case RevokeAdd(_, _, follow) => follow.Rotate? ==> follow.next !in Members(s, fid)
    case RevokeDate(_, _, follow) => follow.Rotate? ==> follow.next !in Members(s, fid)
    case TrackNext(_, next) => next !in Members(s, fid)
    case UntrackOld(_, next) => Members(s, fid) != {} ==> (added <==> next in Members(s, fid))
    case Renew(jti) => Members(s, fid) != {} ==> (added <==> jti in Members(s, fid))
    case Deliver(jti) => Unexpired(s, jti) ==> (held <==> Tracked(s, jti))
    case _ => true
  }

  /** The two records after the next call of the handler. */
  predicate AddedBy(s: State, fid: string, ok: bool, added: bool) {
    var h := HandlerOf(s, fid);
    if h.Track? || h.TrackNext? then ok else added
  }

  predicate HeldBy(s: State, fid: string, ok: bool, added: bool, held: bool) {
    var h := HandlerOf(s, fid);
    if h.Renew? then added && Members(s, fid) != {} && h.jti in s.tokens && Lasts(s, fid, h.jti, ok) else held
  }

  lemma AdvanceTells(s: State, fid: string, ok: bool, added: bool, held: bool)
    requires HandlerKept(s, fid, HandlerOf(s, fid)) && Told(s, fid, added, held)
    ensures Told(Advance(s, fid, ok), fid, AddedBy(s, fid, ok, added), HeldBy(s, fid, ok, added, held))
  {
  }

  lemma BeginTells(s: State, step: Step, added: bool, held: bool)
    requires Kept(s) && Begins(step) && Told(s, step.fid, added, held)
    ensures Told(Apply(s, step), step.fid, added, held)
  {
    var t := Apply(s, step);
    forall x | x in Members(t, step.fid)
      ensures x in s.tokens
    {
      assert SetKept(s, step.fid) && TrackingSet(t, step.fid) == TrackingSet(s, step.fid);
      assert x in TrackingSet(s, step.fid).members;
    }
  }

  lemma TickTells(s: State, d: nat, fid: string, added: bool, held: bool)
    requires Told(s, fid, added, held)
    ensures Told(Apply(s, Tick(d)), fid, added, held)
  {
    var t := Apply(s, Tick(d));
    assert Members(t, fid) == {} || Members(t, fid) == Members(s, fid);
  }

  lemma OtherTells(s: State, t: State, fid: string, g: string, added: bool, held: bool)
    requires Kept(s) && Apart(s, t, fid) && g != fid && Told(s, g, added, held)
    ensures Told(t, g, added, held)
  {
    assert HandlerKept(s, g, HandlerOf(s, g));
    assert Members(t, g) == Members(s, g);
  }

  lemma {:induction false} RunTells(now: int, steps: seq<Step>, n: nat, fid: string)
    requires n <= |steps|
    ensures var s := Initial(now);
            Told(RunTo(s, steps, n), fid, Added(s, steps, n, fid), Held(s, steps, n, fid))
  {
    if n > 0 {
      RunTells(now, steps, n - 1, fid);
      RunIsKept(now, steps, n - 1);
      var s := Initial(now);
      StepTells(RunTo(s, steps, n - 1), steps[n - 1], fid, Added(s, steps, n - 1, fid), Held(s, steps, n - 1, fid));
    }
  }

  lemma StepTells(s: State, step: Step, fid: string, added: bool, held: bool)
    requires Kept(s) && Told(s, fid, added, held)
    ensures if step.Continue? && step.fid == fid
            then Told(Apply(s, step), fid, AddedBy(s, fid, step.ok, added), HeldBy(s, fid, step.ok, added, held))
            else Told(Apply(s, step), fid, added, held)
  {
    match step
    case Tick(d) => TickTells(s, d, fid, added, held);
    case Continue(g, ok) =>
      assert HandlerKept(s, g, HandlerOf(s, g));
      if g == fid {
        AdvanceTells(s, fid, ok, added, held);
      } else {
        AdvanceIsApart(s, g, ok);
        OtherTells(s, Apply(s, step), g, fid, added, held);
      }
    case Crash(g) =>
      if g != fid {
        OtherTells(s, Apply(s, step), g, fid, added, held);
      }
    case _ =>
      if step.fid == fid {
        BeginTells(s, step, added, held);
      } else {
        BeginIsKept(s, step);
        OtherTells(s, Apply(s, step), step.fid, fid, added, held);
      }
  }

  // ----- Every run -----

  /** The condition of step i with a delivery told by the calls before it. */
  ghost predicate KeepsByCalls(s: State, steps: seq<Step>, i: nat)
    requires i < |steps|
  {
    var before, step := RunTo(s, steps, i), steps[i];
    if step.Continue? && HandlerOf(before, step.fid).Deliver?
    then Unexpired(before, HandlerOf(before, step.fid).jti) ==> Held(s, steps, i, step.fid)
    else Keeps(before, step)
  }

  ghost predicate KeepsByCallsTo(s: State, steps: seq<Step>, n: nat)
    requires n <= |steps|
  {
    n > 0 ==> KeepsByCallsTo(s, steps, n - 1) && KeepsByCalls(s, steps, n - 1)
  }

  lemma CallsTell(now: int, steps: seq<Step>, i: nat)
    requires i < |steps|
    ensures KeepsByCalls(Initial(now), steps, i) <==> Keeps(RunTo(Initial(now), steps, i), steps[i])
  {
    var before, step := RunTo(Initial(now), steps, i), steps[i];
    RunIsKept(now, steps, i);
    if step.Continue? && HandlerOf(before, step.fid).Deliver? {
      RunTells(now, steps, i, step.fid);
      assert HandlerKept(before, step.fid, HandlerOf(before, step.fid));
    }
  }

  lemma {:induction false} CallsTellTo(now: int, steps: seq<Step>, n: nat)
    requires n <= |steps|
    ensures KeepsByCallsTo(Initial(now), steps, n) <==> KeepsTo(Initial(now), steps, n)
  {
    if n > 0 {
      CallsTellTo(now, steps, n - 1);
      CallsTell(now, steps, n - 1);
    }
  }

  /** Through a run of any calls unexpired tokens stay tracked or revoked for good exactly
      when each was delivered after a SADD that succeeded and an EXPIRE that found the
      key and leaves it long enough, and every later call meets its condition. */
  lemma SafeByCallsExactly(now: int, steps: seq<Step>)
    ensures SafeTo(Initial(now), steps, |steps|) <==> KeepsByCallsTo(Initial(now), steps, |steps|)
  {
    SafeHoldsExactly(Initial(now), steps, |steps|);
    CallsTellTo(now, steps, |steps|);
  }
}
