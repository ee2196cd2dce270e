/** Redis sets: members under one deadline for the whole key. */
module RedisSets {
  import opened Basics

  datatype RSet = RSet(members: set<string>, deadline: Option<int>)

  /** A key that does not exist. */
  const GONE := RSet({}, None)

  /** The key as Redis serves it at that time: gone once its deadline is reached. */
  function Seen(s: RSet, now: int): RSet {
    if s.deadline.Some? && s.deadline.value <= now then GONE else s
  }

  /** SADD: a new key has no deadline, an old one keeps its own. */
  function Add(s: RSet, x: string, now: int): RSet {
    var v := Seen(s, now);
    RSet(v.members + {x}, v.deadline)
  }

  /** SREM: a set that becomes empty is deleted with its deadline. */
  function Remove(s: RSet, x: string, now: int): RSet {
    var v := Seen(s, now);
    if v.members <= {x} then GONE else RSet(v.members - {x}, v.deadline)
  }

  /** EXPIRE and EXPIREAT: nothing happens to a key that does not exist. */
  function ExpireAt(s: RSet, until: int, now: int): RSet {
    var v := Seen(s, now);
    if v.members == {} then GONE else RSet(v.members, Some(until))
  }

  /** x is in the set, which has no deadline or one that does not come before `until`. */
  predicate HoldsUntil(s: RSet, x: string, until: int, now: int) {
    x in Seen(s, now).members && (s.deadline.None? || until <= s.deadline.value)
  }

  /** What the calls leave of the members and the deadline. */
  lemma SetCallsExactly(s: RSet, x: string, until: int, now: int)
    ensures var alive := s.deadline.None? || now < s.deadline.value;
            var was := if alive then s.members else {};
            && Seen(s, now).members == was && Seen(s, now).deadline == (if alive then s.deadline else None)
            && Add(s, x, now).members == was + {x}
            && Add(s, x, now).deadline == (if alive then s.deadline else None)
            && Remove(s, x, now).members == was - {x}
            && Remove(s, x, now).deadline == (if was - {x} == {} || !alive then None else s.deadline)
            && ExpireAt(s, until, now).members == was
            && ExpireAt(s, until, now).deadline == (if was == {} then None else Some(until))
            && (HoldsUntil(s, x, until, now) <==> x in was && (s.deadline.None? || until <= s.deadline.value))
  {
  }
}
