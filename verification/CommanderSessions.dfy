/** Revocation as the code runs it, with any Redis call failing: RevokeJTI and
    Validate in internal/auth/commander_jwt.go and revokeAllSessionsImpl in
    internal/httpapi/commander_session.go. */
module CommanderSessions {
  import opened Basics
  import opened RedisSets

  const DAY := 24 * 60 * 60

  /** Which of the two calls of RevokeJTI fails. */
  datatype Fault = Fine | AddFails | DateFails

  datatype Failure = ReadFailed | RevokeFailed(jti: string) | DelFailed

  function RevokedJTI(revoked: RSet, jti: string, until: int, now: int, fault: Fault): RSet {
    match fault
    case AddFails => revoked
    case DateFails => Add(revoked, jti, now)
    case Fine => ExpireAt(Add(revoked, jti, now), until, now)
  }

  /** The revoked set after the first n members. */
  function RevokedTo(revoked: RSet, jtis: seq<string>, n: nat, until: int, now: int, faults: seq<Fault>): RSet
    requires n <= |jtis| == |faults|
  {
    if n == 0 then revoked
    else RevokedJTI(RevokedTo(revoked, jtis, n - 1, until, now, faults), jtis[n - 1], until, now, faults[n - 1])
  }

  /** The failure a revocation of the first n members reports. */
  function FirstFailure(jtis: seq<string>, n: nat, faults: seq<Fault>): Option<Failure>
    requires n <= |jtis| == |faults|
  {
    if n == 0 then None else
    var earlier := FirstFailure(jtis, n - 1, faults);
    if earlier.Some? || faults[n - 1].Fine? then earlier else Some(RevokeFailed(jtis[n - 1]))
  }

  /** How the calls of one mass revocation go. */
  datatype Calls = Calls(readOk: bool, faults: seq<Fault>, delOk: bool)

  /** The tracking sets and the revoked set after a mass revocation. */
  function AllRevoked(tracking: map<string, RSet>, revoked: RSet, fid: string, jtis: seq<string>, now: int,
        calls: Calls)
    : (map<string, RSet>, RSet)
    requires |jtis| == |calls.faults|
  {
    if !calls.readOk then (tracking, revoked)
    else (if calls.delOk then tracking - {fid} else tracking,
          RevokedTo(revoked, jtis, |jtis|, now + DAY, now, calls.faults))
  }

  /** A token as presented; `signed` tells whether its signature verifies under the
      public key. Tokens of the issuer always have an expiry. */
  datatype Presented = Presented(alg: string, signed: bool, issuer: string, jti: string, exp: int)

  class SessionRedis {
    var tracking: map<string, RSet>
    var revoked: RSet

    constructor ()
      ensures tracking == map[] && revoked == GONE
    {
      tracking, revoked := map[], GONE;
    }

    ghost function Key(fid: string): RSet
      reads this
    {
      if fid in tracking then tracking[fid] else GONE
    }

    method RevokeJTI(jti: string, until: int, now: int, fault: Fault) returns (failed: bool)
      modifies `revoked
      ensures revoked == RevokedJTI(old(revoked), jti, until, now, fault)
      ensures failed <==> !fault.Fine?
    {
      if fault.AddFails? {
        return true;
      }
      revoked := Add(revoked, jti, now);
      if fault.DateFails? {
        return true;
      }
      revoked := ExpireAt(revoked, until, now);
      failed := false;
    }

    /** An empty expected issuer accepts any. `reachable` is false when SISMEMBER fails,
        which refuses the token. */
    method Validate(token: Presented, issuer: string, now: int, reachable: bool) returns (accepted: bool)
      ensures accepted
         <==> && token.alg == "RS256" && token.signed
              && (issuer == "" || token.issuer == issuer)
              && now < token.exp
              && (token.jti != "" ==> reachable)
              && (token.jti != "" && token.jti in revoked.members ==>
                    revoked.deadline.Some? && revoked.deadline.value <= now)
    {
      if token.alg != "RS256" || !token.signed {
        return false;
      }
      if issuer != "" && token.issuer != issuer {
        return false;
      }
      if now >= token.exp {
        return false;
      }
      if token.jti != "" {
        if !reachable {
          return false;
        }
        if token.jti in Seen(revoked, now).members {
          return false;
        }
      }
      accepted := true;
    }

    /** `jtis` is the answer of SMEMBERS. Failed revocations do not stop the loop,
        nor keep the set from being deleted. */
    method RevokeAllSessions(fid: string, jtis: seq<string>, now: int, calls: Calls) returns (firstErr: Option<Failure>)
      requires |jtis| == |calls.faults|
      modifies this
      ensures (tracking, revoked) == AllRevoked(old(tracking), old(revoked), fid, jtis, now, calls)
      ensures firstErr == if !calls.readOk then Some(ReadFailed) else
                          var looped := FirstFailure(jtis, |jtis|, calls.faults);
                          if looped.None? && !calls.delOk then Some(DelFailed) else looped
    {
      if !calls.readOk {
        return Some(ReadFailed);
      }
      var expiry := now + DAY;
      firstErr := None;
      for i := 0 to |jtis|
        invariant revoked == RevokedTo(old(revoked), jtis, i, expiry, now, calls.faults)
        invariant firstErr == FirstFailure(jtis, i, calls.faults)
        invariant tracking == old(tracking)
      {
        var failed := RevokeJTI(jtis[i], expiry, now, calls.faults[i]);
        if failed {
          if firstErr.None? {
            firstErr := Some(RevokeFailed(jtis[i]));
          }
        }
      }
      if calls.delOk {
        tracking := tracking - {fid};
      } else if firstErr.None? {
        firstErr := Some(DelFailed);
      }
    }
  }

  // ----- What the calls leave behind -----

  /** A revocation puts the jti in the set, even where setting the deadline fails; the
      deadline is then the new one for all of the set, or what it was. */
  lemma RevokedExactly(revoked: RSet, jti: string, until: int, now: int, fault: Fault)
    ensures var after := RevokedJTI(revoked, jti, until, now, fault);
            var alive := revoked.deadline.None? || now < revoked.deadline.value;
            && (fault.AddFails? ==> after == revoked)
            && (!fault.AddFails? ==> after.members == (if alive then revoked.members else {}) + {jti})
            && (fault.DateFails? ==> after.deadline == if alive then revoked.deadline else None)
            && (fault.Fine? ==> until <= now || after.deadline == Some(until))
  {
    SetCallsExactly(revoked, jti, until, now);
    SetCallsExactly(Add(revoked, jti, now), jti, until, now);
  }

  /** The failure reported is that of the first member that failed. */
  lemma {:induction false} FirstFailureExactly(jtis: seq<string>, n: nat, faults: seq<Fault>)
    requires n <= |jtis| == |faults|
    ensures FirstFailure(jtis, n, faults).None? <==> forall i | 0 <= i < n :: faults[i] == Fine
    ensures FirstFailure(jtis, n, faults).Some? ==>
              exists i | 0 <= i < n ::
                && faults[i] != Fine && FirstFailure(jtis, n, faults) == Some(RevokeFailed(jtis[i]))
                && forall k | 0 <= k < i :: faults[k] == Fine
  {
    if n > 0 {
      FirstFailureExactly(jtis, n - 1, faults);
    }
  }

  /** Without a reading nothing changes; otherwise the commander's set goes unless the
      DEL fails, and nobody else's does. */
  lemma AllRevokedExactly(tracking: map<string, RSet>, revoked: RSet, fid: string, jtis: seq<string>, now: int,
        calls: Calls)
    requires |jtis| == |calls.faults|
    ensures var (sets, after) := AllRevoked(tracking, revoked, fid, jtis, now, calls);
            && (!calls.readOk ==> sets == tracking && after == revoked)
            && (fid in sets <==> fid in tracking && !(calls.readOk && calls.delOk))
            && sets - {fid} == tracking - {fid} && (fid in sets ==> sets[fid] == tracking[fid])
            && (calls.readOk ==>
                  forall x ::
                    x in Seen(after, now).members
                    <==> || x in Seen(revoked, now).members
                         || exists i | 0 <= i < |jtis| :: jtis[i] == x && !calls.faults[i].AddFails?)
  {
    if calls.readOk {
      forall x
        ensures x in Seen(RevokedTo(revoked, jtis, |jtis|, now + DAY, now, calls.faults), now).members
           <==> || x in Seen(revoked, now).members
                || exists i | 0 <= i < |jtis| :: jtis[i] == x && !calls.faults[i].AddFails?
      {
        RevokedMembers(revoked, jtis, |jtis|, now + DAY, now, calls.faults, x);
      }
    }
  }

  // ----- What a partial failure costs -----

  lemma {:induction false} RevokedMembers(revoked: RSet, jtis: seq<string>, n: nat, until: int, now: int,
                                          faults: seq<Fault>, x: string)
    requires n <= |jtis| == |faults| && now < until
    ensures x in Seen(RevokedTo(revoked, jtis, n, until, now, faults), now).members
       <==> x in Seen(revoked, now).members || exists i | 0 <= i < n :: jtis[i] == x && !faults[i].AddFails?
  {
    if n > 0 {
      RevokedMembers(revoked, jtis, n - 1, until, now, faults, x);
    }
  }

  /** A tracked token can still be found, or is refused. */
  predicate Reachable(tracking: RSet, revoked: RSet, jti: string, now: int) {
    jti in Seen(tracking, now).members || jti in Seen(revoked, now).members
  }

  /** A member is lost, neither tracked nor revoked, exactly when the set is deleted
      although its SADD failed and nothing else had revoked it. */
  lemma LostExactly(tracking: RSet, revoked: RSet, jtis: seq<string>, now: int, faults: seq<Fault>, delOk: bool,
        x: string)
    requires |jtis| == |faults| && x in Seen(tracking, now).members
    ensures !Reachable(if delOk then GONE else tracking,
                       RevokedTo(revoked, jtis, |jtis|, now + DAY, now, faults), x, now)
       <==> && delOk
            && x !in Seen(revoked, now).members
            && forall i | 0 <= i < |jtis| :: jtis[i] == x ==> faults[i].AddFails?
  {
    RevokedMembers(revoked, jtis, |jtis|, now + DAY, now, faults, x);
  }

  /** A revocation that reports no error has revoked every member for a day. */
  lemma NoErrorRevokesAll(revoked: RSet, jtis: seq<string>, n: nat, now: int, faults: seq<Fault>, i: nat)
    requires i < n <= |jtis| == |faults| && FirstFailure(jtis, n, faults).None?
    ensures HoldsUntil(RevokedTo(revoked, jtis, n, now + DAY, now, faults), jtis[i], now + 86400, now)
  {
    RevokedMembers(revoked, jtis, n, now + DAY, now, faults, jtis[i]);
    NoErrorIsFine(jtis, n, faults, i);
    NoErrorIsFine(jtis, n, faults, n - 1);
  }

  lemma {:induction false} NoErrorIsFine(jtis: seq<string>, n: nat, faults: seq<Fault>, i: nat)
    requires i < n <= |jtis| == |faults| && FirstFailure(jtis, n, faults).None?
    ensures faults[i].Fine?
  {
    if i < n - 1 {
      NoErrorIsFine(jtis, n - 1, faults, i);
    }
  }
}
