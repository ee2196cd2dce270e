/** Single-use nonces: commanderChatNonceStore in internal/httpapi/commander_chat_user.go. */
module NonceStore {
  import opened Basics

  datatype User = User(fid: string, name: string)

  datatype Entry = Entry(user: User, expiresAt: int)

  type Items = map<string, Entry>

  /** Calls in the order their critical sections run, with the clock each one reads. */
  datatype Op =
    | Issue(nonce: string, user: User, ttl: int, at: int)
    | Consume(nonce: string, at: int)
    | Cleanup(at: int)

  function Issued(items: Items, nonce: string, user: User, ttl: int, at: int): Items {
    items[nonce := Entry(user, at + ttl)]
  }

  /** An entry may be used up to and including the moment it expires. */
  function Answer(items: Items, nonce: string, at: int): Option<User> {
    if nonce in items && at <= items[nonce].expiresAt then Some(items[nonce].user) else None
  }

  function Swept(items: Items, at: int): Items {
    map nonce | nonce in items && at <= items[nonce].expiresAt :: items[nonce]
  }

  class CommanderChatNonceStore {
    var items: Items

    constructor ()
      ensures items == map[]
    {
      items := map[];
    }

    method Issue(nonce: string, user: User, ttl: int, now: int)
      modifies this
      ensures items == Issued(old(items), nonce, user, ttl, now)
    {
      items := items[nonce := Entry(user, now + ttl)];
    }

    /** The entry goes, whether it had expired or not. */
    method Consume(nonce: string, now: int) returns (user: Option<User>)
      modifies this
      ensures user == Answer(old(items), nonce, now)
      ensures user == if nonce in old(items) && now <= old(items)[nonce].expiresAt then Some(old(items)[nonce].user)
                      else None
      ensures items == old(items) - {nonce}
    {
      if nonce !in items {
        return None;
      }
      var entry := items[nonce];
      items := items - {nonce};
      if now > entry.expiresAt {
        return None;
      }
      user := Some(entry.user);
    }

    /** One round of the sweeper. */
    method Cleanup(now: int)
      modifies this
      ensures items == Swept(old(items), now)
      ensures forall n :: n in items <==> n in old(items) && now <= old(items)[n].expiresAt
      ensures forall n | n in items :: items[n] == old(items)[n]
    {
      var pending := items.Keys;
      while pending != {}
        invariant pending <= old(items).Keys
        invariant forall n | n in items :: n in old(items) && items[n] == old(items)[n]
        invariant forall n | n in old(items) && n in pending :: n in items
        invariant forall n | n in old(items) && n !in pending :: n in items <==> now <= old(items)[n].expiresAt
        decreases |pending|
      {
        var nonce :| nonce in pending;
        pending := pending - {nonce};
        if now > items[nonce].expiresAt {
          items := items - {nonce};
        }
      }
    }
  }

  // ----- Runs -----

  /** The entries after the first n calls. */
  function ItemsAfter(ops: seq<Op>, n: nat): Items
    requires n <= |ops|
  {
    if n == 0 then map[] else
    var before := ItemsAfter(ops, n - 1);
    match ops[n - 1]
    case Issue(nonce, user, ttl, at) => Issued(before, nonce, user, ttl, at)
    case Consume(nonce, _) => before - {nonce}
    case Cleanup(at) => Swept(before, at)
  }

  /** The answer by the history alone: the last issue of the nonce, unless it was
      consumed since or its time is over. Sweeps play no part. */
  function ByHistory(ops: seq<Op>, n: nat, nonce: string, now: int): Option<User>
    requires n <= |ops|
  {
    if n == 0 then None else
    var op := ops[n - 1];
    if op.Consume? && op.nonce == nonce then None
    else if op.Issue? && op.nonce == nonce then if now <= op.at + op.ttl then Some(op.user) else None
    else ByHistory(ops, n - 1, nonce, now)
  }

  /** No sweep before n read a later clock. */
  predicate SweptBy(ops: seq<Op>, n: nat, now: int)
    requires n <= |ops|
  {
    forall i | 0 <= i < n && ops[i].Cleanup? :: ops[i].at <= now
  }

  /** Sweeps, run at any moments, change no answer: the store answers by the history. */
  lemma {:induction false} AnswersByHistory(ops: seq<Op>, n: nat, nonce: string, now: int)
    requires n <= |ops| && SweptBy(ops, n, now)
    ensures Answer(ItemsAfter(ops, n), nonce, now) == ByHistory(ops, n, nonce, now)
  {
    if n > 0 {
      AnswersByHistory(ops, n - 1, nonce, now);
    }
  }

  /** A sweeper whose clock ran ahead does change answers. */
  lemma EarlySweepLosesNonce(nonce: string, user: User, now: int, ttl: nat)
    ensures var ops := [Issue(nonce, user, ttl, now), Cleanup(now + ttl + 1)];
            Answer(ItemsAfter(ops, 2), nonce, now) == None && ByHistory(ops, 2, nonce, now) == Some(user)
  {
    var ops := [Issue(nonce, user, ttl, now), Cleanup(now + ttl + 1)];
    assert ItemsAfter(ops, 1) == map[nonce := Entry(user, now + ttl)];
    assert ByHistory(ops, 1, nonce, now) == Some(user);
  }

  // ----- Nonces that are new -----

  predicate IssuesNonce(op: Op, nonce: string) {
    op.Issue? && op.nonce == nonce
  }

  predicate ConsumesNonce(op: Op, nonce: string) {
    op.Consume? && op.nonce == nonce
  }

  predicate FreshNonces(ops: seq<Op>) {
    forall i, j | 0 <= i < j < |ops| && ops[i].Issue? && ops[j].Issue? :: ops[i].nonce != ops[j].nonce
  }

  /** Issued to the user at i, not expired, not consumed since. */
  predicate Redeemable(ops: seq<Op>, n: nat, i: nat, nonce: string, user: User, now: int)
    requires n <= |ops|
  {
    && i < n && IssuesNonce(ops[i], nonce) && ops[i].user == user && now <= ops[i].at + ops[i].ttl
    && forall j | i < j < n :: !ConsumesNonce(ops[j], nonce)
  }

  /** A user comes back exactly when the nonce was issued to that user, has not
      expired and was not consumed since. */
  lemma AnswerExactly(ops: seq<Op>, n: nat, nonce: string, user: User, now: int)
    requires n <= |ops| && SweptBy(ops, n, now) && FreshNonces(ops)
    ensures Answer(ItemsAfter(ops, n), nonce, now) == Some(user)
       <==> exists i: nat :: Redeemable(ops, n, i, nonce, user, now)
  {
    AnswersByHistory(ops, n, nonce, now);
    HistoryExactly(ops, n, nonce, user, now);
  }

  lemma {:induction false} HistoryExactly(ops: seq<Op>, n: nat, nonce: string, user: User, now: int)
    requires n <= |ops| && FreshNonces(ops)
    ensures ByHistory(ops, n, nonce, now) == Some(user) <==> exists i: nat :: Redeemable(ops, n, i, nonce, user, now)
  {
    if n > 0 {
      HistoryExactly(ops, n - 1, nonce, user, now);
      var op := ops[n - 1];
      if IssuesNonce(op, nonce) {
        assert op.user == user && now <= op.at + op.ttl ==> Redeemable(ops, n, n - 1, nonce, user, now);
      } else if !ConsumesNonce(op, nonce) {
        SameRedeemable(ops, n - 1, n, nonce, user, now);
      }
    }
  }

  lemma SameRedeemable(ops: seq<Op>, m: nat, n: nat, nonce: string, user: User, now: int)
    requires m + 1 == n <= |ops| && !IssuesNonce(ops[m], nonce) && !ConsumesNonce(ops[m], nonce)
    ensures (exists i: nat :: Redeemable(ops, n, i, nonce, user, now))
       <==> (exists i: nat :: Redeemable(ops, m, i, nonce, user, now))
  {
    if i: nat :| Redeemable(ops, n, i, nonce, user, now) {
      assert Redeemable(ops, m, i, nonce, user, now);
    }
    if i: nat :| Redeemable(ops, m, i, nonce, user, now) {
      assert Redeemable(ops, n, i, nonce, user, now);
    }
  }

  /** No nonce is redeemed twice. */
  lemma RedeemedOnce(ops: seq<Op>, i: nat, j: nat, nonce: string)
    requires i < j < |ops| && FreshNonces(ops)
    requires ops[i].Consume? && ops[i].nonce == nonce && ops[j].Consume? && ops[j].nonce == nonce
    requires SweptBy(ops, i, ops[i].at) && SweptBy(ops, j, ops[j].at)
    ensures Answer(ItemsAfter(ops, i), nonce, ops[i].at).None? || Answer(ItemsAfter(ops, j), nonce, ops[j].at).None?
  {
    var a := Answer(ItemsAfter(ops, i), nonce, ops[i].at);
    if a.Some? {
      AnswerExactly(ops, i, nonce, a.value, ops[i].at);
      var x: nat :| Redeemable(ops, i, x, nonce, a.value, ops[i].at);
      forall user
        ensures Answer(ItemsAfter(ops, j), nonce, ops[j].at) != Some(user)
      {
        AnswerExactly(ops, j, nonce, user, ops[j].at);
        UsedUp(ops, x, i, j, nonce, user, ops[j].at);
      }
    }
  }

  lemma UsedUp(ops: seq<Op>, x: nat, i: nat, j: nat, nonce: string, user: User, now: int)
    requires x < i < j < |ops| && FreshNonces(ops) && IssuesNonce(ops[x], nonce) && ConsumesNonce(ops[i], nonce)
    ensures !exists y: nat :: Redeemable(ops, j, y, nonce, user, now)
  {
    forall y: nat
      ensures !Redeemable(ops, j, y, nonce, user, now)
    {
      assert y < j && IssuesNonce(ops[y], nonce) ==> y == x;
    }
  }
}
