/** The two Lua scripts of internal/llm/redis_store.go on one session's keys,
    whose lifetimes are separate. */
module RedisChatScripts {

  /** The meta and message keys live until metaUntil, the set of message ids until idsUntil. */
  datatype Keys = Keys(lines: seq<string>, metaUntil: int, ids: set<string>, idsUntil: int)

  datatype Verdict = Missing | Seen | Stored

  /** `loaded` is false where the session cannot be read back after the script, which
      the client is told as a failed append. */
  datatype Op = AppendOnce(id: string, at: int, loaded: bool) | Commit(reply: string, at: int)

  predicate MetaAlive(k: Keys, now: int) {
    now < k.metaUntil
  }

  /** The ids Redis still has at that time. */
  function Known(k: Keys, now: int): set<string> {
    if now < k.idsUntil then k.ids else {}
  }

  /** SADD and EXPIRE on the set of ids; without an id to add, EXPIRE needs a set that is there. */
  function Remember(k: Keys, id: string, now: int, ttl: int): Keys {
    if id == "" && Known(k, now) == {} then k
    else k.(ids := Known(k, now) + (if id == "" then {} else {id}), idsUntil := now + ttl)
  }

  /** appendMessageOnceScript: every key that is there gets a new lifetime. */
  function Append(k: Keys, id: string, now: int, ttl: int): (Keys, Verdict) {
    if !MetaAlive(k, now) then (k, Missing)
    else if id != "" && id in Known(k, now) then (k, Seen)
    else (Remember(k, id, now, ttl).(lines := k.lines + [id], metaUntil := now + ttl), Stored)
  }

  /** commitAssistantTurnScript: the set of message ids keeps its old lifetime. */
  function CommitTurn(k: Keys, reply: string, now: int, ttl: int): Keys {
    if !MetaAlive(k, now) then k else k.(lines := k.lines + [reply], metaUntil := now + ttl)
  }

  /** An append is stored exactly in a live session that does not know its id; it gives
      every key that is then there a new lifetime. A commit renews the session alone. */
  lemma ScriptsExactly(k: Keys, id: string, reply: string, now: int, ttl: int)
    ensures var (after, verdict) := Append(k, id, now, ttl);
            var known := if now < k.idsUntil then k.ids else {};
            && (verdict == Missing <==> k.metaUntil <= now)
            && (verdict == Seen <==> now < k.metaUntil && id != "" && id in known)
            && (verdict != Stored ==> after == k)
            && (verdict == Stored ==>
                  && |after.lines| == |k.lines| + 1 && after.lines[..|k.lines|] == k.lines
                  && after.lines[|k.lines|] == id && after.metaUntil == now + ttl
                  && (id != "" ==> after.ids == known + {id} && after.idsUntil == now + ttl)
                  && (id == "" && known != {} ==> after.ids == known && after.idsUntil == now + ttl)
                  && (id == "" && known == {} ==> after.ids == k.ids && after.idsUntil == k.idsUntil))
    ensures var after := CommitTurn(k, reply, now, ttl);
            && after.ids == k.ids && after.idsUntil == k.idsUntil
            && (if k.metaUntil <= now then after == k else
                  && |after.lines| == |k.lines| + 1 && after.lines[..|k.lines|] == k.lines
                  && after.lines[|k.lines|] == reply && after.metaUntil == now + ttl)
  {
  }

  /** The keys after the first n operations and the ids stored on the way. */
  function Run(k: Keys, ops: seq<Op>, n: nat, ttl: int): (Keys, seq<string>)
    requires n <= |ops|
  {
    if n == 0 then (k, []) else
    var (before, accepted) := Run(k, ops, n - 1, ttl);
    match ops[n - 1]
    case AppendOnce(id, at, _) =>
      var r := Append(before, id, at, ttl);
      (r.0, if r.1.Stored? && id != "" then accepted + [id] else accepted)
    case Commit(reply, at) => (CommitTurn(before, reply, at, ttl), accepted)
  }

  predicate Distinct(s: seq<string>) {
    forall i, j | 0 <= i < j < |s| :: s[i] != s[j]
  }

  function Items(s: seq<string>): set<string> {
    set i | 0 <= i < |s| :: s[i]
  }

  // ----- What is forgotten -----

  /** The operation brings an id to a live session. */
  predicate Brings(k: Keys, op: Op) {
    op.AppendOnce? && op.id != "" && MetaAlive(k, op.at)
  }

  /** The set of ids has ended and the session has not. */
  predicate InGap(k: Keys, op: Op) {
    op.AppendOnce? && k.idsUntil <= op.at < k.metaUntil
  }

  /** The stored ids that the last append in the gap wiped out, less those stored again since. */
  function Lost(k: Keys, ops: seq<Op>, n: nat, ttl: int): set<string>
    requires n <= |ops|
  {
    if n == 0 then {} else
    var (before, accepted) := Run(k, ops, n - 1, ttl);
    var lost, op := Lost(k, ops, n - 1, ttl), ops[n - 1];
    if !Brings(before, op) then lost
    else if InGap(before, op) then Items(accepted) - {op.id}
    else lost - {op.id}
  }

  /** Operation i sends the live session an id that was lost, or a stored one in the gap. */
  predicate Resends(k: Keys, ops: seq<Op>, i: nat, ttl: int)
    requires i < |ops|
  {
    var (before, accepted) := Run(k, ops, i, ttl);
    Brings(before, ops[i]) && (ops[i].id in Lost(k, ops, i, ttl) || (ops[i].id in accepted && InGap(before, ops[i])))
  }

  lemma ItemsAppend(s: seq<string>, x: string)
    ensures Items(s + [x]) == Items(s) + {x}
  {
    var t := s + [x];
    assert t[|s|] == x;
    forall y | y in Items(s)
      ensures y in Items(t)
    {
      var i :| 0 <= i < |s| && s[i] == y;
      assert t[i] == y;
    }
  }

  lemma ItemsAre(s: seq<string>, x: string)
    ensures x in Items(s) <==> x in s
  {
  }

  lemma DistinctAppend(s: seq<string>, x: string)
    ensures Distinct(s + [x]) <==> Distinct(s) && x !in s
  {
    var t := s + [x];
    assert forall i | 0 <= i < |s| :: t[i] == s[i];
    if Distinct(t) {
      forall i | 0 <= i < |s|
        ensures s[i] != x
      {
        assert t[i] != t[|s|];
      }
    }
  }

  /** Every stored id is either still in the set or lost. */
  predicate Accounted(k: Keys, accepted: seq<string>, lost: set<string>) {
    lost <= Items(accepted) && forall x | x in Items(accepted) :: x in k.ids <==> x !in lost
  }

  lemma {:induction false} AcceptedAreAccounted(k: Keys, ops: seq<Op>, n: nat, ttl: int)
    requires n <= |ops|
    ensures Accounted(Run(k, ops, n, ttl).0, Run(k, ops, n, ttl).1, Lost(k, ops, n, ttl))
  {
    if n > 0 {
      AcceptedAreAccounted(k, ops, n - 1, ttl);
      if ops[n - 1].AppendOnce? {
        ItemsAppend(Run(k, ops, n - 1, ttl).1, ops[n - 1].id);
      }
    }
  }

  /** The id is among those the operations from j up to n stored. */
  predicate StoredSince(k: Keys, ops: seq<Op>, j: nat, n: nat, ttl: int, x: string)
    requires j <= n <= |ops|
  {
    j < n && (|| StoredSince(k, ops, j, n - 1, ttl, x)
              || (Brings(Run(k, ops, n - 1, ttl).0, ops[n - 1]) && ops[n - 1].id == x
                  && x !in Known(Run(k, ops, n - 1, ttl).0, ops[n - 1].at)))
  }

  /** Operation j was an append in the gap, the id was stored before it and not since. */
  predicate WipedAt(k: Keys, ops: seq<Op>, j: nat, n: nat, ttl: int, x: string)
    requires j < n <= |ops|
  {
    var (before, accepted) := Run(k, ops, j, ttl);
    Brings(before, ops[j]) && InGap(before, ops[j]) && x in accepted && !StoredSince(k, ops, j, n, ttl, x)
  }

  lemma {:induction false} StoredStays(k: Keys, ops: seq<Op>, j: nat, n: nat, ttl: int, x: string)
    requires j <= n <= |ops| && x in Run(k, ops, j, ttl).1
    ensures x in Run(k, ops, n, ttl).1
  {
    if j < n {
      StoredStays(k, ops, j, n - 1, ttl, x);
    }
  }

  /** The lost ids, told by the run alone. */
  lemma {:induction false} LostExactly(k: Keys, ops: seq<Op>, n: nat, ttl: int, x: string)
    requires n <= |ops|
    ensures x in Lost(k, ops, n, ttl) <==> exists j | 0 <= j < n :: WipedAt(k, ops, j, n, ttl, x)
  {
    if n > 0 {
      LostExactly(k, ops, n - 1, ttl, x);
      AcceptedAreAccounted(k, ops, n - 1, ttl);
      ItemsAre(Run(k, ops, n - 1, ttl).1, x);
      forall j | 0 <= j < n - 1
        ensures WipedAt(k, ops, j, n, ttl, x)
           <==> WipedAt(k, ops, j, n - 1, ttl, x) && !StoredSince(k, ops, n - 1, n, ttl, x)
        ensures WipedAt(k, ops, j, n - 1, ttl, x) ==> x in Run(k, ops, n - 1, ttl).1
      {
        if x in Run(k, ops, j, ttl).1 {
          StoredStays(k, ops, j, n - 1, ttl, x);
        }
      }
      LostNext(k, ops, n, ttl, x);
      if j :| 0 <= j < n && WipedAt(k, ops, j, n, ttl, x) {
        assert j < n - 1 ==> WipedAt(k, ops, j, n - 1, ttl, x);
      }
      var m := n - 1;
      if j :| 0 <= j < m && WipedAt(k, ops, j, m, ttl, x) {
        assert WipedAt(k, ops, j, n, ttl, x) <==> !StoredSince(k, ops, n - 1, n, ttl, x);
      }
    }
  }

  lemma LostNext(k: Keys, ops: seq<Op>, n: nat, ttl: int, x: string)
    requires 0 < n <= |ops|
    requires Accounted(Run(k, ops, n - 1, ttl).0, Run(k, ops, n - 1, ttl).1, Lost(k, ops, n - 1, ttl))
    ensures x in Lost(k, ops, n, ttl)
       <==> WipedAt(k, ops, n - 1, n, ttl, x)
            || (x in Lost(k, ops, n - 1, ttl) && !StoredSince(k, ops, n - 1, n, ttl, x))
  {
    var (before, accepted) := Run(k, ops, n - 1, ttl);
    ItemsAre(accepted, x);
    assert !StoredSince(k, ops, n - 1, n - 1, ttl, x);
    assert x in Lost(k, ops, n - 1, ttl) ==> x in Items(accepted) && x !in before.ids;
  }

  /** An id is taken for a new one although it is stored exactly by a resend of that kind. */
  lemma StoredAgainExactly(k: Keys, ops: seq<Op>, i: nat, ttl: int)
    requires i < |ops| && ops[i].AppendOnce? && ops[i].id != "" && ops[i].id in Run(k, ops, i, ttl).1
    ensures Append(Run(k, ops, i, ttl).0, ops[i].id, ops[i].at, ttl).1.Stored? <==> Resends(k, ops, i, ttl)
  {
    AcceptedAreAccounted(k, ops, i, ttl);
    ItemsAre(Run(k, ops, i, ttl).1, ops[i].id);
  }

  /** Some of the first n operations resends. */
  predicate ResendsTo(k: Keys, ops: seq<Op>, n: nat, ttl: int)
    requires n <= |ops|
  {
    n > 0 && (ResendsTo(k, ops, n - 1, ttl) || Resends(k, ops, n - 1, ttl))
  }

  /** Over every run each id is stored at most once exactly as long as nobody sends a live
      session an id that an append in the gap has wiped out, or a stored one in the gap. */
  lemma {:induction false} StoredOnceExactly(k: Keys, ops: seq<Op>, n: nat, ttl: int)
    requires n <= |ops|
    ensures Distinct(Run(k, ops, n, ttl).1) <==> !ResendsTo(k, ops, n, ttl)
  {
    if n > 0 {
      StoredOnceExactly(k, ops, n - 1, ttl);
      var (before, accepted) := Run(k, ops, n - 1, ttl);
      var op := ops[n - 1];
      if op.AppendOnce? && op.id != "" {
        DistinctAppend(accepted, op.id);
        AcceptedAreAccounted(k, ops, n - 1, ttl);
        ItemsAre(accepted, op.id);
        if op.id in accepted {
          StoredAgainExactly(k, ops, n - 1, ttl);
        }
      }
    }
  }

  // ----- Turns -----

  /** The ids for which the first n operations started a turn. */
  function Started(k: Keys, ops: seq<Op>, n: nat, ttl: int): seq<string>
    requires n <= |ops|
  {
    if n == 0 then [] else
    var started, op := Started(k, ops, n - 1, ttl), ops[n - 1];
    if op.AppendOnce? && op.id != "" && op.loaded && Append(Run(k, ops, n - 1, ttl).0, op.id, op.at, ttl).1.Stored?
    then started + [op.id] else started
  }

  /** Some of the first n operations resends an id that has had its turn, and loads the session. */
  predicate RestartsTo(k: Keys, ops: seq<Op>, n: nat, ttl: int)
    requires n <= |ops|
  {
    n > 0 && (RestartsTo(k, ops, n - 1, ttl)
              || (Resends(k, ops, n - 1, ttl) && ops[n - 1].loaded && ops[n - 1].id in Started(k, ops, n - 1, ttl)))
  }

  lemma {:induction false} StartedAreStored(k: Keys, ops: seq<Op>, n: nat, ttl: int)
    requires n <= |ops|
    ensures forall x | x in Started(k, ops, n, ttl) :: x in Run(k, ops, n, ttl).1
  {
    if n > 0 {
      StartedAreStored(k, ops, n - 1, ttl);
    }
  }

  /** Each message of a session starts at most one turn exactly as long as none that had
      its turn is sent again after it was lost or in the gap. */
  lemma {:induction false} TurnsOnceExactly(k: Keys, ops: seq<Op>, n: nat, ttl: int)
    requires n <= |ops|
    ensures Distinct(Started(k, ops, n, ttl)) <==> !RestartsTo(k, ops, n, ttl)
  {
    if n > 0 {
      TurnsOnceExactly(k, ops, n - 1, ttl);
      StartedAreStored(k, ops, n - 1, ttl);
      var started, op := Started(k, ops, n - 1, ttl), ops[n - 1];
      if op.AppendOnce? && op.id != "" {
        DistinctAppend(started, op.id);
        if op.id in started {
          StoredAgainExactly(k, ops, n - 1, ttl);
        }
      }
    }
  }

  // ----- Runs without the gap, and two with it -----

  predicate NoGap(k: Keys, op: Op) {
    op.AppendOnce? ==> op.at < k.idsUntil || op.at >= k.metaUntil
  }

  lemma {:induction false} NothingLost(k: Keys, ops: seq<Op>, n: nat, ttl: int)
    requires n <= |ops|
    requires forall i | 0 <= i < n :: NoGap(Run(k, ops, i, ttl).0, ops[i])
    ensures Lost(k, ops, n, ttl) == {} && !ResendsTo(k, ops, n, ttl)
  {
    if n > 0 {
      NothingLost(k, ops, n - 1, ttl);
      assert NoGap(Run(k, ops, n - 1, ttl).0, ops[n - 1]);
    }
  }

  /** A client message id is stored at most once as long as no message arrives in the gap. */
  lemma {:induction false} StoredOnce(k: Keys, ops: seq<Op>, n: nat, ttl: int)
    requires n <= |ops|
    requires forall i | 0 <= i < n :: NoGap(Run(k, ops, i, ttl).0, ops[i])
    ensures var (end, accepted) := Run(k, ops, n, ttl);
            Distinct(accepted) && forall i | 0 <= i < |accepted| :: accepted[i] in end.ids
  {
    NothingLost(k, ops, n, ttl);
    StoredOnceExactly(k, ops, n, ttl);
    AcceptedAreAccounted(k, ops, n, ttl);
  }

  const FRESH := Keys([], 10, {}, 10)

  /** A slow turn: the first message is resent in the gap. */
  const LATE_RESEND: seq<Op> := [AppendOnce("a", 0, true), Commit("answer", 5), AppendOnce("a", 12, true)]

  /** In the gap another message comes first; the resend comes after it. */
  const WIPED_RESEND: seq<Op> :=
    [AppendOnce("a", 0, true), Commit("answer", 5), AppendOnce("b", 12, true), AppendOnce("a", 13, true)]

  lemma FirstAnswered(ops: seq<Op>)
    requires |ops| >= 2 && ops[0] == AppendOnce("a", 0, true) && ops[1] == Commit("answer", 5)
    ensures Run(FRESH, ops, 2, 10) == (Keys(["a", "answer"], 15, {"a"}, 10), ["a"])
    ensures Started(FRESH, ops, 2, 10) == ["a"]
  {
    var none: set<string> := {};
    assert none + {"a"} == {"a"} && [] + ["a"] == ["a"] && ["a"] + ["answer"] == ["a", "answer"];
    assert Run(FRESH, ops, 0, 10) == (FRESH, []);
    assert Run(FRESH, ops, 1, 10) == (Keys(["a"], 10, {"a"}, 10), ["a"]);
    assert Started(FRESH, ops, 1, 10) == ["a"];
  }

  /** A slow turn opens the gap: its commit renews the session but not the ids, and
      a late resend of the answered message is stored and answered a second time. */
  lemma LateResendIsStoredAgain()
    ensures Run(FRESH, LATE_RESEND, 3, 10).1 == ["a", "a"] && Started(FRESH, LATE_RESEND, 3, 10) == ["a", "a"]
  {
    FirstAnswered(LATE_RESEND);
  }

  /** The append of another message in the gap makes a new set of ids with that one
      alone: the resend is not in the gap any more, and is stored again all the same. */
  lemma WipedResendIsStoredAgain()
    ensures Run(FRESH, WIPED_RESEND, 4, 10).1 == ["a", "b", "a"]
    ensures NoGap(Run(FRESH, WIPED_RESEND, 3, 10).0, WIPED_RESEND[3]) && "a" in Lost(FRESH, WIPED_RESEND, 3, 10)
  {
    FirstAnswered(WIPED_RESEND);
    var none: set<string> := {};
    assert none + {"b"} == {"b"} && ["a"] + ["b"] == ["a", "b"] && ["a", "answer"] + ["b"] == ["a", "answer", "b"];
    assert Run(FRESH, WIPED_RESEND, 3, 10) == (Keys(["a", "answer", "b"], 22, {"b"}, 22), ["a", "b"]);
    assert ["a"][0] in Items(["a"]);
    assert ["a", "b"] + ["a"] == ["a", "b", "a"];
  }
}
