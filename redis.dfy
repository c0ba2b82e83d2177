/**
 * The cache tier: a key/value store whose entries may carry an expiry
 * instant, with the conversation helpers that key entries `conv:<identity>`
 * and the per-identity rate counter kept under `rate:<identity>`.
 * Time is an integer clock in milliseconds; TTLs are given in seconds.
 */
module Redis {
  import opened Wrappers
  import opened ConversationStates

  /** The document cached for a conversation: `{id, state, data}`. */
  datatype CachedConversation = CachedConversation(id: nat, state: State, data: Data)

  /** What a key holds: a JSON document or an integer counter. */
  datatype Value = Doc(doc: CachedConversation) | Count(n: int)

  datatype Entry = Entry(value: Value, expiresAt: Option<int>)

  type Store = map<string, Entry>

  const DefaultExpiry := 3600
  const MaxRequests := 50
  const RateWindow := 3600

  function ConvKey(identity: string): string { "conv:" + identity }
  function RateKey(identity: string): string { "rate:" + identity }

  /** The two key families never meet, so counting messages never touches a
      cached conversation and caching never touches a counter. */
  lemma KeyFamiliesDisjoint(a: string, b: string)
    ensures ConvKey(a) != RateKey(b)
  {
    assert ConvKey(a)[0] == 'c' && RateKey(b)[0] == 'r';
  }

  lemma ConvKeyInjective(a: string, b: string)
    ensures ConvKey(a) == ConvKey(b) <==> a == b
  {
    if ConvKey(a) == ConvKey(b) {
      assert a == ConvKey(a)[5..] && b == ConvKey(b)[5..];
    }
  }

  lemma RateKeyInjective(a: string, b: string)
    ensures RateKey(a) == RateKey(b) <==> a == b
  {
    if RateKey(a) == RateKey(b) {
      assert a == RateKey(a)[5..] && b == RateKey(b)[5..];
    }
  }

  /** A key is visible until its expiry instant has passed. */
  predicate Live(s: Store, key: string, now: int) {
    key in s && (s[key].expiresAt.None? || now <= s[key].expiresAt.value)
  }

  /** `GET`: a missing or expired key reads as nothing. */
  function Lookup(s: Store, key: string, now: int): (r: Option<Value>)
    ensures r.Some? <==> Live(s, key, now)
    ensures r.Some? ==> r.value == s[key].value
  {
    if Live(s, key, now) then Some(s[key].value) else None
  }

  /** `SETEX`: store `v` for `expirySeconds` seconds from `now`. */
  function SetEx(s: Store, key: string, v: Value, expirySeconds: int, now: int): (r: Store)
    requires expirySeconds > 0
    ensures key in r && r[key] == Entry(v, Some(now + expirySeconds * 1000))
    ensures forall k :: k != key ==> (k in r <==> k in s) && (k in s ==> r[k] == s[k])
  {
    s[key := Entry(v, Some(now + expirySeconds * 1000))]
  }

  /** `DEL`. */
  function Delete(s: Store, key: string): (r: Store)
    ensures key !in r
    ensures forall k :: k != key ==> (k in r <==> k in s) && (k in s ==> r[k] == s[k])
  {
    s - {key}
  }

  /** The counter a key currently holds, 0 when it is missing or expired. */
  function Counter(s: Store, key: string, now: int): int {
    if Live(s, key, now) && s[key].value.Count? then s[key].value.n else 0
  }

  /** `INCR`: a missing or expired key starts again at 1 with no expiry; a
      live counter keeps its expiry; a key holding a document is an error. */
  function Incr(s: Store, key: string, now: int): (r: Option<(Store, int)>)
    ensures r.None? <==> Live(s, key, now) && s[key].value.Doc?
    ensures r.Some? ==> r.value.1 == Counter(s, key, now) + 1 && Counter(r.value.0, key, now) == r.value.1
    ensures r.Some? ==> forall k :: k != key ==> (k in r.value.0 <==> k in s) && (k in s ==> r.value.0[k] == s[k])
  {
    if !Live(s, key, now) then Some((s[key := Entry(Count(1), None)], 1))
    else match s[key].value
      case Count(n) => Some((s[key := Entry(Count(n + 1), s[key].expiresAt)], n + 1))
      case Doc(_) => None
  }

  /** `EXPIRE`: only a live key gets the new expiry; an expiry that is
      already past deletes the key. */
  function Expire(s: Store, key: string, seconds: int, now: int): (r: Store)
    ensures Live(s, key, now) && seconds > 0 ==> key in r && r[key] == s[key].(expiresAt := Some(now + seconds * 1000))
    ensures Live(s, key, now) && seconds <= 0 ==> key !in r
    ensures !Live(s, key, now) ==> r == s
    ensures forall k :: k != key ==> (k in r <==> k in s) && (k in s ==> r[k] == s[k])
  {
    if !Live(s, key, now) then s
    else if seconds <= 0 then s - {key}
    else s[key := s[key].(expiresAt := Some(now + seconds * 1000))]
  }

  /** `TTL`: -2 for a missing key, -1 for a key without expiry, otherwise the
      remaining time rounded to whole seconds. */
  function Ttl(s: Store, key: string, now: int): (r: int)
    ensures !Live(s, key, now) ==> r == -2
    ensures Live(s, key, now) && s[key].expiresAt.None? ==> r == -1
    ensures Live(s, key, now) && s[key].expiresAt.Some? ==> r >= 0
  {
    if !Live(s, key, now) then -2
    else if s[key].expiresAt.None? then -1
    else (s[key].expiresAt.value - now + 500) / 1000
  }

  // ---------------------------------------------------------------------
  // The conversation helpers

  /** A cached conversation; counters are never stored under `conv:` keys. */
  function GetConversationState(s: Store, identity: string, now: int): (r: Option<CachedConversation>)
    ensures r.Some? <==> Lookup(s, ConvKey(identity), now).Some? && Lookup(s, ConvKey(identity), now).value.Doc?
    ensures r.Some? ==> Lookup(s, ConvKey(identity), now) == Some(Doc(r.value))
  {
    match Lookup(s, ConvKey(identity), now)
    case Some(Doc(c)) => Some(c)
    case _ => None
  }

  function SetConversationState(s: Store, identity: string, c: CachedConversation, now: int): Store {
    SetEx(s, ConvKey(identity), Doc(c), DefaultExpiry, now)
  }

  function DeleteConversationState(s: Store, identity: string): Store {
    Delete(s, ConvKey(identity))
  }

  /** After caching a conversation it reads back unchanged until its hour is
      up, and then reads as missing. */
  lemma SetThenGet(s: Store, identity: string, c: CachedConversation, now: int, later: int)
    requires now <= later
    ensures GetConversationState(SetConversationState(s, identity, c, now), identity, later) ==
            (if later <= now + DefaultExpiry * 1000 then Some(c) else None)
  {
  }

  lemma DeleteThenGet(s: Store, identity: string, now: int)
    ensures GetConversationState(DeleteConversationState(s, identity), identity, now).None?
  {
  }

  /** Caching or dropping one identity's conversation leaves every other key
      as it was. */
  lemma OtherKeysUnaffected(s: Store, identity: string, c: CachedConversation, now: int, other: string, t: int)
    requires other != ConvKey(identity)
    ensures Lookup(SetConversationState(s, identity, c, now), other, t) == Lookup(s, other, t)
    ensures Lookup(DeleteConversationState(s, identity), other, t) == Lookup(s, other, t)
  {
  }

  // ---------------------------------------------------------------------
  // Rate limiting

  datatype RateLimit = RateLimit(allowed: bool, remaining: int, resetIn: int)

  /** `checkRateLimit`: count this message, start the window when the count
      becomes 1, and allow at most `maxRequests` messages in it. None when
      the counter key holds a document (INCR fails). */
  function CheckRateLimit(s: Store, identity: string, now: int, maxRequests: int, windowSeconds: int): (r: Option<(Store, RateLimit)>)
    ensures r.None? <==> Incr(s, RateKey(identity), now).None?
    ensures r.Some? ==>
      var current := Counter(s, RateKey(identity), now) + 1;
      var (s', rl) := r.value;
      && (rl.allowed <==> current <= maxRequests)
      && rl.remaining == (if maxRequests - current > 0 then maxRequests - current else 0)
      && rl.remaining >= 0
      && (windowSeconds > 0 || current > 1 ==>
            && Counter(s', RateKey(identity), now) == current
            && RateKey(identity) in s'
            && s'[RateKey(identity)].expiresAt ==
                 (if current == 1 then Some(now + windowSeconds * 1000) else s[RateKey(identity)].expiresAt))
      && (RateKey(identity) in s' ==> s'[RateKey(identity)].value.Count?)
      && (forall k :: k != RateKey(identity) ==> (k in s' <==> k in s) && (k in s ==> s'[k] == s[k]))
    ensures r.Some? ==> r.value.1.resetIn == Ttl(r.value.0, RateKey(identity), now)
  {
    var key := RateKey(identity);
    match Incr(s, key, now)
    case None => None
    case Some((s1, current)) =>
      var s2 := if current == 1 then Expire(s1, key, windowSeconds, now) else s1;
      var remaining := if maxRequests - current > 0 then maxRequests - current else 0;
      Some((s2, RateLimit(current <= maxRequests, remaining, Ttl(s2, key, now))))
  }

  /** The outcomes of successive rate checks for one identity at the given
      instants. */
  function RateRun(s: Store, identity: string, times: seq<int>, maxRequests: int, windowSeconds: int): Option<(Store, seq<RateLimit>)>
    decreases |times|
  {
    if times == [] then Some((s, []))
    else match CheckRateLimit(s, identity, times[0], maxRequests, windowSeconds)
      case None => None
      case Some((s1, rl)) =>
        match RateRun(s1, identity, times[1..], maxRequests, windowSeconds)
        case None => None
        case Some((s2, rls)) => Some((s2, [rl] + rls))
  }

  /** Within one open window whose counter holds `n`, the checks at the
      given instants see `n + 1`, `n + 2`, ... */
  lemma {:induction false} RateRunWithin(s: Store, identity: string, times: seq<int>, maxRequests: int, windowSeconds: int, n: int, e: int)
    requires n >= 1
    requires times == [] || Live(s, RateKey(identity), times[0])
    requires RateKey(identity) in s && s[RateKey(identity)] == Entry(Count(n), Some(e))
    requires forall i :: 0 <= i < |times| ==> times[i] <= e
    ensures RateRun(s, identity, times, maxRequests, windowSeconds).Some?
    ensures var rls := RateRun(s, identity, times, maxRequests, windowSeconds).value.1;
      |rls| == |times| && forall i :: 0 <= i < |times| ==> (rls[i].allowed <==> n + i + 1 <= maxRequests)
    decreases |times|
  {
    if times != [] {
      var key := RateKey(identity);
      assert Counter(s, key, times[0]) == n;
      var (s1, rl) := CheckRateLimit(s, identity, times[0], maxRequests, windowSeconds).value;
      var s1' := s[key := Entry(Count(n + 1), Some(e))];
      assert s1 == s1';
      RateRunWithin(s1, identity, times[1..], maxRequests, windowSeconds, n + 1, e);
      var rls := RateRun(s1, identity, times[1..], maxRequests, windowSeconds).value.1;
      assert RateRun(s, identity, times, maxRequests, windowSeconds).value.1 == [rl] + rls;
    }
  }

  /** Starting from an identity without a live counter at `times[0]`, every
      check made within the window that the first one opens is numbered in
      order: the first `maxRequests` are allowed and the rest are not. */
  lemma RateWindowAllowsFirst(s: Store, identity: string, times: seq<int>, maxRequests: int, windowSeconds: int)
    requires times != [] && !Live(s, RateKey(identity), times[0])
    requires forall i :: 0 <= i < |times| ==> times[0] <= times[i] <= times[0] + windowSeconds * 1000
    requires windowSeconds > 0
    ensures RateRun(s, identity, times, maxRequests, windowSeconds).Some?
    ensures var rls := RateRun(s, identity, times, maxRequests, windowSeconds).value.1;
      |rls| == |times| && forall i :: 0 <= i < |times| ==> (rls[i].allowed <==> i + 1 <= maxRequests)
  {
    var key := RateKey(identity);
    var e := times[0] + windowSeconds * 1000;
    var (s1, rl) := CheckRateLimit(s, identity, times[0], maxRequests, windowSeconds).value;
    assert s1 == s[key := Entry(Count(1), Some(e))];
    if |times| > 1 {
      assert times[1..][0] == times[1];
    }
    RateRunWithin(s1, identity, times[1..], maxRequests, windowSeconds, 1, e);
    var rls := RateRun(s1, identity, times[1..], maxRequests, windowSeconds).value.1;
    assert RateRun(s, identity, times, maxRequests, windowSeconds).value.1 == [rl] + rls;
  }

  /** With the handler's defaults: messages 1 to 50 of a window pass and the
      51st does not. */
  lemma FiftyPerHour(s: Store, identity: string, times: seq<int>)
    requires |times| == 51 && !Live(s, RateKey(identity), times[0])
    requires forall i :: 0 <= i < |times| ==> times[0] <= times[i] <= times[0] + RateWindow * 1000
    ensures RateRun(s, identity, times, MaxRequests, RateWindow).Some?
    ensures var rls := RateRun(s, identity, times, MaxRequests, RateWindow).value.1;
      |rls| == 51 && (forall i :: 0 <= i < 50 ==> rls[i].allowed) && !rls[50].allowed
  {
    RateWindowAllowsFirst(s, identity, times, MaxRequests, RateWindow);
  }

  /** Which of the rate check's three commands throw: INCR, EXPIRE (issued
      only when the count becomes 1) and TTL. */
  datatype RateFaults = RateFaults(incr: bool, expire: bool, ttl: bool)

  const NoFaults := RateFaults(false, false, false)

  /** `checkRateLimit` command by command: the keyspace the commands that
      ran leave behind, and the result, or None when one of them threw. A
      throw does not undo the commands before it. */
  function RateCheckRun(s: Store, identity: string, now: int, maxRequests: int, windowSeconds: int, f: RateFaults): (Store, Option<RateLimit>)
  {
    var key := RateKey(identity);
    if f.incr then (s, None)
    else match Incr(s, key, now)
      case None => (s, None)
      case Some((s1, current)) =>
        if current == 1 && f.expire then (s1, None)
        else
          var s2 := if current == 1 then Expire(s1, key, windowSeconds, now) else s1;
          if f.ttl then (s2, None)
          else
            var remaining := if maxRequests - current > 0 then maxRequests - current else 0;
            (s2, Some(RateLimit(current <= maxRequests, remaining, Ttl(s2, key, now))))
  }

  /** The rate check fault by fault: with none it is `CheckRateLimit`; a
      throwing INCR changes nothing; an EXPIRE throwing on a first count
      leaves the counter at 1 with no expiry; a throwing TTL leaves the
      keyspace `CheckRateLimit` leaves. */
  lemma RateCheckRunCases(s: Store, identity: string, now: int, maxRequests: int, windowSeconds: int, f: RateFaults)
    ensures var r := RateCheckRun(s, identity, now, maxRequests, windowSeconds, f);
      var full := CheckRateLimit(s, identity, now, maxRequests, windowSeconds);
      && (f == NoFaults ==> r == (if full.None? then (s, None) else (full.value.0, Some(full.value.1))))
      && (f.incr ==> r == (s, None))
      && (!f.incr && f.expire && !Live(s, RateKey(identity), now) ==>
            r == (s[RateKey(identity) := Entry(Count(1), None)], None))
      && (!f.incr && f.ttl && (f.expire ==> Counter(s, RateKey(identity), now) != 0) && full.Some? ==>
            r == (full.value.0, None))
  {
  }

  /** Whichever commands throw, the rate check touches only its counter,
      and leaves there a count or what was there before. */
  lemma RateCheckRunFrame(s: Store, identity: string, now: int, maxRequests: int, windowSeconds: int, f: RateFaults)
    ensures var s' := RateCheckRun(s, identity, now, maxRequests, windowSeconds, f).0;
      && (forall k :: k != RateKey(identity) ==> (k in s' <==> k in s) && (k in s ==> s'[k] == s[k]))
      && (RateKey(identity) in s' ==> s'[RateKey(identity)].value.Count? || (RateKey(identity) in s && s'[RateKey(identity)] == s[RateKey(identity)]))
  {
  }

  /** A counter without an expiry is live at every instant, so it is never
      reset: each check counts on from `n`, whatever the time. */
  lemma {:induction false} RateRunNoExpiry(s: Store, identity: string, times: seq<int>, maxRequests: int, windowSeconds: int, n: int)
    requires n >= 1
    requires RateKey(identity) in s && s[RateKey(identity)] == Entry(Count(n), None)
    ensures RateRun(s, identity, times, maxRequests, windowSeconds).Some?
    ensures var (s', rls) := RateRun(s, identity, times, maxRequests, windowSeconds).value;
      && |rls| == |times| && (forall i :: 0 <= i < |times| ==> (rls[i].allowed <==> n + i + 1 <= maxRequests))
      && RateKey(identity) in s' && s'[RateKey(identity)] == Entry(Count(n + |times|), None)
    decreases |times|
  {
    if times != [] {
      var key := RateKey(identity);
      assert Counter(s, key, times[0]) == n;
      var (s1, rl) := CheckRateLimit(s, identity, times[0], maxRequests, windowSeconds).value;
      assert s1 == s[key := Entry(Count(n + 1), None)];
      RateRunNoExpiry(s1, identity, times[1..], maxRequests, windowSeconds, n + 1);
      var rls := RateRun(s1, identity, times[1..], maxRequests, windowSeconds).value.1;
      assert RateRun(s, identity, times, maxRequests, windowSeconds).value.1 == [rl] + rls;
    }
  }

  /** A lost EXPIRE locks an identity out: when the first check of a window
      counts 1 but its EXPIRE throws, the counter never expires, and of all
      the checks that follow, at any instants, only the first
      `maxRequests - 1` are allowed. */
  lemma LostExpireLocksOut(s: Store, identity: string, now: int, times: seq<int>, maxRequests: int, windowSeconds: int)
    requires !Live(s, RateKey(identity), now)
    ensures var (s1, rl) := RateCheckRun(s, identity, now, maxRequests, windowSeconds, RateFaults(false, true, false));
      && rl.None?
      && s1[RateKey(identity)] == Entry(Count(1), None)
      && RateRun(s1, identity, times, maxRequests, windowSeconds).Some?
      && var rls := RateRun(s1, identity, times, maxRequests, windowSeconds).value.1;
         |rls| == |times| && forall i :: 0 <= i < |times| ==> (rls[i].allowed <==> i + 2 <= maxRequests)
  {
    var s1 := RateCheckRun(s, identity, now, maxRequests, windowSeconds, RateFaults(false, true, false)).0;
    RateRunNoExpiry(s1, identity, times, maxRequests, windowSeconds, 1);
  }

  // ---------------------------------------------------------------------
  // The service over a mutable keyspace

  class RedisService {
    var entries: Store

    constructor (initial: Store)
      ensures entries == initial
    {
      entries := initial;
    }

    method Set(key: string, v: Value, expirySeconds: int, now: int)
      requires expirySeconds > 0
      modifies this
      ensures entries == SetEx(old(entries), key, v, expirySeconds, now)
    {
      entries := entries[key := Entry(v, Some(now + expirySeconds * 1000))];
    }

    method Get(key: string, now: int) returns (r: Option<Value>)
      ensures r.Some? <==> Live(entries, key, now)
      ensures r.Some? ==> r.value == entries[key].value
    {
      if key in entries && (entries[key].expiresAt.None? || now <= entries[key].expiresAt.value) {
        r := Some(entries[key].value);
      } else {
        r := None;
      }
    }

    method Del(key: string)
      modifies this
      ensures entries == Delete(old(entries), key)
    {
      entries := entries - {key};
    }

    method GetConversation(identity: string, now: int) returns (r: Option<CachedConversation>)
      ensures r == GetConversationState(entries, identity, now)
    {
      var v := Get(ConvKey(identity), now);
      if v.Some? && v.value.Doc? {
        r := Some(v.value.doc);
      } else {
        r := None;
      }
    }

    method SetConversation(identity: string, c: CachedConversation, now: int)
      modifies this
      ensures entries == SetConversationState(old(entries), identity, c, now)
    {
      Set(ConvKey(identity), Doc(c), DefaultExpiry, now);
    }

    method DeleteConversation(identity: string)
      modifies this
      ensures entries == DeleteConversationState(old(entries), identity)
    {
      Del(ConvKey(identity));
    }

    /** INCR, EXPIRE when the count is 1, then TTL, against the keyspace. */
    method RateCheck(identity: string, now: int, maxRequests: int, windowSeconds: int, f: RateFaults) returns (r: Option<RateLimit>)
      modifies this
      ensures (entries, r) == RateCheckRun(old(entries), identity, now, maxRequests, windowSeconds, f)
    {
      var key := RateKey(identity);
      if f.incr {
        return None;
      }
      var current: int;
      if !(key in entries && (entries[key].expiresAt.None? || now <= entries[key].expiresAt.value)) {
        entries := entries[key := Entry(Count(1), None)];
        current := 1;
      } else if entries[key].value.Count? {
        current := entries[key].value.n + 1;
        entries := entries[key := Entry(Count(current), entries[key].expiresAt)];
      } else {
        return None;
      }
      if current == 1 {
        if f.expire {
          return None;
        }
        if windowSeconds <= 0 {
          entries := entries - {key};
        } else {
          entries := entries[key := entries[key].(expiresAt := Some(now + windowSeconds * 1000))];
        }
      }
      if f.ttl {
        return None;
      }
      var remaining := if maxRequests - current > 0 then maxRequests - current else 0;
      var ttl := -2;
      if key in entries {
        if entries[key].expiresAt.None? {
          ttl := -1;
        } else if now <= entries[key].expiresAt.value {
          ttl := (entries[key].expiresAt.value - now + 500) / 1000;
        }
      }
      r := Some(RateLimit(current <= maxRequests, remaining, ttl));
    }
  }
}
