/**
 * Runs of messages from one identity replayed against the handler, a pause
 * apart and with no store call failing: the replay function and the step
 * lemmas that follow a conversation through an opener, accepted answers
 * and refused ones.
 */
module Scenario {
  import opened Wrappers
  import opened JsText
  import opened ConversationStates
  import Redis
  import Database
  import opened SmsHandler
  import opened HandlerProperties
  import opened HandlerBehaviour

  /** The script waits a second after each reply. */
  const Pause := 1000

  /** Empty cache, empty tables. */
  const Empty := World(map[], Database.Tables([], [], [], []))

  /** The world after `messages` from `identity`, the first handled at `now`
      and each one `Pause` after the previous one, with the replies in
      order. A story request handed on for dispatch is not followed. */
  function Replay(w: World, identity: string, messages: seq<string>, now: int, dates: DateLib): (r: (World, seq<Option<string>>))
    requires WellFormed(w)
    ensures WellFormed(r.0) && |r.1| == |messages|
    decreases |messages|, 2
  {
    if messages == [] then (w, []) else Answer(w, identity, messages, now, dates)
  }

  /** The first reply, followed by the replies to the rest. */
  function Answer(w: World, identity: string, messages: seq<string>, now: int, dates: DateLib): (r: (World, seq<Option<string>>))
    requires WellFormed(w) && messages != []
    ensures WellFormed(r.0) && |r.1| == |messages|
    decreases |messages|, 1
  {
    var (o, rest) := Handled(w, identity, messages, now, dates);
    (rest.0, [o.reply] + rest.1)
  }

  /** The outcome of the first message, and the replay of the rest a pause
      later from the world it leaves. */
  function Handled(w: World, identity: string, messages: seq<string>, now: int, dates: DateLib): (r: (Outcome, (World, seq<Option<string>>)))
    requires WellFormed(w) && messages != []
    ensures WellFormed(r.0.world) && WellFormed(r.1.0) && |r.1.1| == |messages| - 1
    decreases |messages|, 0
  {
    var o := HandleSpec(w, identity, messages[0], Ctx(now, dates, {}));
    HandleKeeps(w, identity, messages[0], Ctx(now, dates, {}));
    (o, Replay(o.world, identity, messages[1..], now + Pause, dates))
  }

  /** Replaying a non-empty run handles its first message, then the rest
      a pause later. */
  lemma ReplayFirst(w: World, identity: string, ms: seq<string>, now: int, dates: DateLib)
    requires WellFormed(w) && ms != []
    ensures var o := HandleSpec(w, identity, ms[0], Ctx(now, dates, {}));
      Replies(w, identity, ms, now, dates, o.reply, o.world)
  {
    HandleKeeps(w, identity, ms[0], Ctx(now, dates, {}));
    assert Replay(w, identity, ms, now, dates) == Answer(w, identity, ms, now, dates);
    assert Handled(w, identity, ms, now, dates).0 == HandleSpec(w, identity, ms[0], Ctx(now, dates, {}));
  }

  // ---------------------------------------------------------------------
  // One message in a settled world

  /** A single user for `identity`, whose conversation `conv` is cached
      until `e` and whose message counter stands at `n` until `we`; no story
      request has been made. */
  predicate Settled(w: World, identity: string, user: Database.User, conv: Redis.CachedConversation, e: int, n: int, we: int) {
    && WellFormed(w)
    && w.db.users == [user] && user.phoneNumber == identity
    && Redis.ConvKey(identity) in w.cache && w.cache[Redis.ConvKey(identity)] == Redis.Entry(Redis.Doc(conv), Some(e))
    && Redis.RateKey(identity) in w.cache && w.cache[Redis.RateKey(identity)] == Redis.Entry(Redis.Count(n), Some(we))
    && 1 <= conv.id <= |w.db.conversations|
    && w.db.requests == []
  }

  /** The world once a message from `identity` has been logged and counted
      as the `n + 1`-th of a window ending at `we`. */
  function Counted(w: World, identity: string, n: int, we: int, m: string): World {
    World(w.cache[Redis.RateKey(identity) := Redis.Entry(Redis.Count(n + 1), Some(we))],
          w.db.(logs := w.db.logs + [Database.SmsLog(identity, "inbound", m)]))
  }

  /** Counting a message in a settled world keeps it settled, with the
      counter one higher. */
  lemma CountedSettles(w: World, identity: string, user: Database.User, conv: Redis.CachedConversation, e: int, n: int, we: int, m: string)
    requires Settled(w, identity, user, conv, e, n, we)
    ensures Settled(Counted(w, identity, n, we, m), identity, user, conv, e, n + 1, we)
    ensures DocOk(conv.state, conv.data)
  {
    RateKeyIsNot(identity);
    Redis.KeyFamiliesDisjoint(identity, identity);
    assert w.cache[Redis.ConvKey(identity)].value.Doc?;
  }

  /** Within both windows and under the limit, a message is logged, counted,
      finds the same user and continues the cached conversation. */
  lemma KnownStep(w: World, identity: string, user: Database.User, conv: Redis.CachedConversation, e: int, n: int, we: int, m: string, c: Ctx)
    requires Settled(w, identity, user, conv, e, n, we)
    requires c.failing == {} && c.now <= e && c.now <= we && 1 <= n < Redis.MaxRequests
    ensures var w1 := Counted(w, identity, n, we, m);
      && Settled(w1, identity, user, conv, e, n + 1, we)
      && DocOk(conv.state, conv.data)
      && HandleSpec(w, identity, m, c) == ContinueSpec(w1, user, identity, conv, m, c, 6)
  {
    var key := Redis.RateKey(identity);
    var w0 := Logged(w, identity, m, c);
    var cache1 := w.cache[key := Redis.Entry(Redis.Count(n + 1), Some(we))];
    var w1 := World(cache1, w0.db);
    var (s', rl) := Redis.CheckRateLimit(w0.cache, identity, c.now, Redis.MaxRequests, Redis.RateWindow).value;
    assert s'[key] == Redis.Entry(Redis.Count(n + 1), Some(we)) by {
      assert Redis.Counter(s', key, c.now) == n + 1;
    }
    assert s' == cache1;
    RateCheckKeeps(w0, identity, c.now, RateFaultsOf(c));
    assert RateFaultsOf(c) == Redis.NoFaults;
    assert Database.UniquePhones(w.db.users);
    Database.KnownUserFound(w.db.users, identity);
    assert Database.CreateOrGetUser(w.db.users, identity) == (w.db.users, user);
    Redis.KeyFamiliesDisjoint(identity, identity);
    assert Redis.GetConversationState(w1.cache, identity, c.now) == Some(conv);
    NoStartOver(w1, user, identity, m, c);
  }

  /** A message the current state refuses gets that state's error text and
      leaves everything but the log and the counter as it was. */
  lemma RefusedStep(w: World, identity: string, user: Database.User, conv: Redis.CachedConversation, e: int, n: int, we: int, m: string, c: Ctx)
    requires Settled(w, identity, user, conv, e, n, we)
    requires c.failing == {} && c.now <= e && c.now <= we && 1 <= n < Redis.MaxRequests
    requires Keyword(m) != "cancel" && Keyword(m) != "stop" && !ValidateInput(conv.state, m)
    ensures var o := HandleSpec(w, identity, m, c);
      && Settled(o.world, identity, user, conv, e, n + 1, we)
      && o.world.db.conversations == w.db.conversations
      && o.reply == Some(GetError(conv.state)) && o.dispatch.None?
  {
    KnownStep(w, identity, user, conv, e, n, we, m, c);
    var w1 := Counted(w, identity, n, we, m);
    RejectedChangesNothing(w1, user, identity, conv, m, c, 6);
  }

  /** An accepted message moving on to a state of the dialogue caches the
      conversation anew, with the answer folded in, for another hour, and
      asks the next state's question. */
  lemma AdvancedStep(w: World, identity: string, user: Database.User, conv: Redis.CachedConversation, e: int, n: int, we: int,
                     m: string, now: int, dates: DateLib, next: State, data: Data)
    requires Settled(w, identity, user, conv, e, n, we) && HasEntry(conv.state)
    requires now <= e && now <= we && 1 <= n < Redis.MaxRequests
    requires Keyword(m) != "cancel" && Keyword(m) != "stop" && ValidateInput(conv.state, m)
    requires GetNextState(conv.state, m) == Some(next) && HasEntry(next)
    requires DocOk(conv.state, conv.data) && data == Answered(conv, m, now)
    ensures var o := HandleSpec(w, identity, m, Ctx(now, dates, {}));
      && data.Form?
      && Settled(o.world, identity, user, Redis.CachedConversation(conv.id, next, data),
                 now + Redis.DefaultExpiry * 1000, n + 1, we)
      && o.reply == GetPrompt(next, Some(data.form), dates) && o.dispatch.None?
  {
    AdvancedHandles(w, identity, user, conv, e, n, we, m, now, dates, next, data);
    CountedAdvance(w, identity, user, conv, e, n, we, m, Redis.CachedConversation(conv.id, next, data), now, dates);
  }

  /** Such a message is handled as the move to the next state, made right
      after it was counted. */
  lemma AdvancedHandles(w: World, identity: string, user: Database.User, conv: Redis.CachedConversation, e: int, n: int, we: int,
                        m: string, now: int, dates: DateLib, next: State, data: Data)
    requires Settled(w, identity, user, conv, e, n, we) && HasEntry(conv.state)
    requires now <= e && now <= we && 1 <= n < Redis.MaxRequests
    requires Keyword(m) != "cancel" && Keyword(m) != "stop" && ValidateInput(conv.state, m)
    requires GetNextState(conv.state, m) == Some(next) && HasEntry(next)
    requires DocOk(conv.state, conv.data) && data == Answered(conv, m, now)
    ensures data.Form?
    ensures HandleSpec(w, identity, m, Ctx(now, dates, {})) ==
      AdvanceSpec(Counted(w, identity, n, we, m), identity, Redis.CachedConversation(conv.id, next, data), Ctx(now, dates, {}), 6)
  {
    var c := Ctx(now, dates, {});
    KnownStep(w, identity, user, conv, e, n, we, m, c);
    AcceptAdvances(Counted(w, identity, n, we, m), user, identity, conv, m, c, next);
  }

  /** Moving on right after a message was counted settles the conversation
      in its new state. */
  lemma CountedAdvance(w: World, identity: string, user: Database.User, conv: Redis.CachedConversation, e: int, n: int, we: int,
                       m: string, conv': Redis.CachedConversation, now: int, dates: DateLib)
    requires Settled(w, identity, user, conv, e, n, we)
    requires now <= e && now <= we && 1 <= n < Redis.MaxRequests
    requires conv'.id == conv.id && conv'.data.Form?
    ensures var o := AdvanceSpec(Counted(w, identity, n, we, m), identity, conv', Ctx(now, dates, {}), 6);
      && Settled(o.world, identity, user, conv', now + Redis.DefaultExpiry * 1000, n + 1, we)
      && o.reply == GetPrompt(conv'.state, Some(conv'.data.form), dates) && o.dispatch.None?
  {
    var c := Ctx(now, dates, {});
    CountedSettles(w, identity, user, conv, e, n, we, m);
    AdvanceSettles(Counted(w, identity, n, we, m), identity, user, conv, e, n + 1, we, conv', c);
  }

  /** An accepted message whose next state has an entry moves the
      conversation there. */
  lemma AcceptAdvances(w: World, user: Database.User, identity: string, conv: Redis.CachedConversation, m: string, c: Ctx, next: State)
    requires DocOk(conv.state, conv.data) && HasEntry(conv.state)
    requires Keyword(m) != "cancel" && Keyword(m) != "stop" && ValidateInput(conv.state, m)
    requires GetNextState(conv.state, m) == Some(next) && HasEntry(next)
    ensures Answered(conv, m, c.now).Form?
    ensures ContinueSpec(w, user, identity, conv, m, c, 6) ==
      AdvanceSpec(w, identity, Redis.CachedConversation(conv.id, next, Answered(conv, m, c.now)), c, 6)
  {
    ContinueAccepted(w, user, identity, conv, m, c, 6);
    AcceptMovesOn(w, user, identity, conv, m, c, 6, next);
  }

  /** A message that neither cancels nor is refused is accepted. */
  lemma ContinueAccepted(w: World, user: Database.User, identity: string, conv: Redis.CachedConversation, m: string, c: Ctx, k: nat)
    requires DocOk(conv.state, conv.data)
    requires Keyword(m) != "cancel" && Keyword(m) != "stop" && ValidateInput(conv.state, m)
    ensures ContinueSpec(w, user, identity, conv, m, c, k) == AcceptSpec(w, user, identity, conv, m, c, k)
  {
  }

  /** An accepted message whose next state is in the dialogue moves the
      conversation there with the answer folded in. */
  lemma AcceptMovesOn(w: World, user: Database.User, identity: string, conv: Redis.CachedConversation, m: string, c: Ctx, k: nat, next: State)
    requires DocOk(conv.state, conv.data) && HasEntry(conv.state)
    requires GetNextState(conv.state, m) == Some(next) && HasEntry(next)
    ensures Answered(conv, m, c.now).Form?
    ensures AcceptSpec(w, user, identity, conv, m, c, k) ==
      AdvanceSpec(w, identity, Redis.CachedConversation(conv.id, next, Answered(conv, m, c.now)), c, k)
  {
    assert next != Completed && next != Cancelled;
  }

  /** Moving a settled conversation on keeps the world settled, with the
      new document cached for an hour from now. */
  lemma AdvanceSettles(w: World, identity: string, user: Database.User, conv: Redis.CachedConversation, e: int, n: int, we: int,
                       conv': Redis.CachedConversation, c: Ctx)
    requires Settled(w, identity, user, conv, e, n, we)
    requires conv'.id == conv.id && conv'.data.Form? && c.failing == {}
    ensures var o := AdvanceSpec(w, identity, conv', c, 6);
      && Settled(o.world, identity, user, conv', c.now + Redis.DefaultExpiry * 1000, n, we)
      && o.reply == GetPrompt(conv'.state, Some(conv'.data.form), c.dates) && o.dispatch.None?
  {
    AdvanceWrites(w, identity, conv', c, 6);
    AdvanceKeeps(w, identity, conv', c, 6);
    Redis.KeyFamiliesDisjoint(identity, identity);
  }

  /** A world that knows nothing of `identity` at `now`: no user at all, no
      conversation, no story request, no live counter and nothing cached. */
  predicate Fresh(w: World, identity: string, now: int) {
    && WellFormed(w)
    && w.db.users == [] && w.db.conversations == [] && w.db.requests == []
    && !Redis.Live(w.cache, Redis.RateKey(identity), now)
    && !Redis.Live(w.cache, Redis.ConvKey(identity), now)
  }

  /** The first message of a new phone, an opener, is answered with the
      welcome and creates user 1 and conversation 1 in INITIAL, caching it. */
  lemma OpeningStep(w: World, identity: string, m: string, c: Ctx)
    requires Fresh(w, identity, c.now) && Keyword(m) == "start" && c.failing == {}
    ensures HandleSpec(w, identity, m, c) ==
      Outcome(Started(OpenedWorld(w, identity, m, c.now), identity, c.now), Some(InitialPrompt), None)
  {
    var w2 := OpenedWorld(w, identity, m, c.now);
    OpeningRoute(w, identity, m, c);
    OpenerOutcome(w2, Database.User(1, identity, 0), identity, m, c, 7);
  }

  /** The opened world once conversation 1 is created and cached. */
  function Started(w2: World, identity: string, now: int): World {
    var row := Database.ConversationRow(1, 1, Initial, Form(InitialForm), now, now + Database.ConversationLifetime);
    World(Redis.SetConversationState(w2.cache, identity, Redis.CachedConversation(1, Initial, Form(InitialForm)), now),
          w2.db.(conversations := [row]))
  }

  /** A started world is settled in INITIAL with both windows
      ending an hour from `now`. */
  lemma StartedSettles(w: World, identity: string, m: string, now: int)
    requires Fresh(w, identity, now)
    ensures var e := now + Redis.DefaultExpiry * 1000;
      Settled(Started(OpenedWorld(w, identity, m, now), identity, now), identity, Database.User(1, identity, 0),
              Redis.CachedConversation(1, Initial, Form(InitialForm)), e, 1, e)
  {
    Redis.KeyFamiliesDisjoint(identity, identity);
  }

  /** The world an opener is routed in: its counter, the new user and the
      log line. */
  function OpenedWorld(w: World, identity: string, m: string, now: int): World {
    World(w.cache[Redis.RateKey(identity) := Redis.Entry(Redis.Count(1), Some(now + Redis.DefaultExpiry * 1000))],
          w.db.(users := [Database.User(1, identity, 0)], logs := w.db.logs + [Database.SmsLog(identity, "inbound", m)]))
  }

  /** Before it is routed, the opener is logged, counted as the first
      message of a new window and creates the user; no conversation is
      found. */
  lemma OpeningRoute(w: World, identity: string, m: string, c: Ctx)
    requires Fresh(w, identity, c.now) && c.failing == {}
    ensures HandleSpec(w, identity, m, c) == StartSpec(OpenedWorld(w, identity, m, c.now), Database.User(1, identity, 0), identity, m, c, 7)
  {
    var user := Database.User(1, identity, 0);
    var w2 := OpenedWorld(w, identity, m, c.now);
    OpeningCount(w.cache, identity, c.now);
    HandleRoutes(w, identity, m, c);
    assert Database.CreateOrGetUser([], identity) == ([user], user) by {
      assert [] + [user] == [user];
    }
    Redis.KeyFamiliesDisjoint(identity, identity);
    assert HandleSpec(w, identity, m, c) == RouteSpec(w2, user, identity, m, c);
    MissStarts(w2, user, identity, m, c);
  }

  /** With nothing cached and nothing stored for the user, the message is
      answered as to a newcomer. */
  lemma MissStarts(w: World, user: Database.User, identity: string, m: string, c: Ctx)
    requires WellFormed(w) && c.failing == {}
    requires Redis.GetConversationState(w.cache, identity, c.now).None?
    requires Database.GetActiveConversation(w.db.conversations, user.id, c.now).None?
    ensures RouteSpec(w, user, identity, m, c) == StartSpec(w, user, identity, m, c, 7)
  {
  }

  /** A message that passes the rate limit with no store call failing is
      logged, counted, finds or creates its user and is then routed. */
  lemma HandleRoutes(w: World, identity: string, m: string, c: Ctx)
    requires WellFormed(w) && c.failing == {}
    requires var r := Redis.CheckRateLimit(w.cache, identity, c.now, Redis.MaxRequests, Redis.RateWindow);
      r.Some? && r.value.1.allowed
    ensures var cache1 := Redis.CheckRateLimit(w.cache, identity, c.now, Redis.MaxRequests, Redis.RateWindow).value.0;
      var found := Database.CreateOrGetUser(w.db.users, identity);
      var w2 := World(cache1, w.db.(users := found.0, logs := w.db.logs + [Database.SmsLog(identity, "inbound", m)]));
      && WellFormed(w2)
      && HandleSpec(w, identity, m, c) == RouteSpec(w2, found.1, identity, m, c)
  {
    var w0 := Logged(w, identity, m, c);
    assert w0.cache == w.cache;
    RateCheckKeeps(w0, identity, c.now, RateFaultsOf(c));
    assert RateFaultsOf(c) == Redis.NoFaults;
  }

  /** The first message of an identity without a live counter opens its
      window. */
  lemma OpeningCount(s: Redis.Store, identity: string, now: int)
    requires !Redis.Live(s, Redis.RateKey(identity), now)
    ensures var r := Redis.CheckRateLimit(s, identity, now, Redis.MaxRequests, Redis.RateWindow);
      && r.Some? && r.value.1.allowed
      && r.value.0 == s[Redis.RateKey(identity) := Redis.Entry(Redis.Count(1), Some(now + Redis.DefaultExpiry * 1000))]
  {
    var key := Redis.RateKey(identity);
    var (s', rl) := Redis.CheckRateLimit(s, identity, now, Redis.MaxRequests, Redis.RateWindow).value;
    assert Redis.Counter(s', key, now) == 1;
  }

  /** A message that neither cancels nor passes the state's check. */
  predicate Refused(s: State, m: string) {
    Keyword(m) != "cancel" && Keyword(m) != "stop" && !ValidateInput(s, m)
  }

  /** Every message of `r` is refused in state `s`; the trigger keeps the
      facts folded until one is asked for. */
  predicate AllRefused(s: State, r: set<string>) {
    forall m {:trigger Refused(s, m)} | m in r :: Refused(s, m)
  }

  /** A run of messages the current state refuses, all within both windows
      and under the limit: each gets the state's error text, and the
      conversation stays cached as it was. */
  lemma {:induction false} RefusedRun(w: World, identity: string, user: Database.User, conv: Redis.CachedConversation, e: int, n: int, we: int,
                                      ms: seq<string>, refused: set<string>, now: int, dates: DateLib)
    requires Settled(w, identity, user, conv, e, n, we)
    requires 1 <= n && n + |ms| <= Redis.MaxRequests
    requires now + Pause * |ms| <= e && now + Pause * |ms| <= we
    requires AllRefused(conv.state, refused) && forall i | 0 <= i < |ms| :: ms[i] in refused
    ensures var r := Replay(w, identity, ms, now, dates);
      && Settled(r.0, identity, user, conv, e, n + |ms|, we)
      && r.0.db.conversations == w.db.conversations
      && forall i :: 0 <= i < |ms| ==> r.1[i] == Some(GetError(conv.state))
    decreases |ms|
  {
    if ms != [] {
      RefusedFirst(w, identity, user, conv, e, n, we, ms, refused, now, dates);
      var w' :| && Settled(w', identity, user, conv, e, n + 1, we)
                && w'.db.conversations == w.db.conversations
                && Replay(w, identity, ms, now, dates) ==
                   (Replay(w', identity, ms[1..], now + Pause, dates).0,
                    [Some(GetError(conv.state))] + Replay(w', identity, ms[1..], now + Pause, dates).1);
      TailIn(ms, refused);
      RefusedRun(w', identity, user, conv, e, n + 1, we, ms[1..], refused, now + Pause, dates);
      var rest := Replay(w', identity, ms[1..], now + Pause, dates);
      AllSameCons(Some(GetError(conv.state)), rest.1);
    }
  }

  lemma TailIn(ms: seq<string>, refused: set<string>)
    requires ms != [] && forall i | 0 <= i < |ms| :: ms[i] in refused
    ensures forall i | 0 <= i < |ms[1..]| :: ms[1..][i] in refused
  {
    forall i | 0 <= i < |ms[1..]| ensures ms[1..][i] in refused {
      assert ms[1..][i] == ms[i + 1];
    }
  }

  lemma AllSameCons<T>(x: T, rest: seq<T>)
    requires forall i :: 0 <= i < |rest| ==> rest[i] == x
    ensures forall i :: 0 <= i < |[x] + rest| ==> ([x] + rest)[i] == x
  {
    forall i | 0 <= i < |[x] + rest| ensures ([x] + rest)[i] == x {
      if i > 0 {
        assert ([x] + rest)[i] == rest[i - 1];
      }
    }
  }

  /** The first message of a refused run leaves a settled world from which
      the rest is replayed. */
  lemma RefusedFirst(w: World, identity: string, user: Database.User, conv: Redis.CachedConversation, e: int, n: int, we: int,
                     ms: seq<string>, refused: set<string>, now: int, dates: DateLib)
    requires Settled(w, identity, user, conv, e, n, we) && ms != []
    requires 1 <= n < Redis.MaxRequests && now <= e && now <= we
    requires AllRefused(conv.state, refused) && ms[0] in refused
    ensures exists w' ::
      && Settled(w', identity, user, conv, e, n + 1, we)
      && w'.db.conversations == w.db.conversations
      && Replay(w, identity, ms, now, dates) ==
         (Replay(w', identity, ms[1..], now + Pause, dates).0,
          [Some(GetError(conv.state))] + Replay(w', identity, ms[1..], now + Pause, dates).1)
  {
    assert Refused(conv.state, ms[0]);
    var c := Ctx(now, dates, {});
    RefusedStep(w, identity, user, conv, e, n, we, ms[0], c);
    ReplayFirst(w, identity, ms, now, dates);
    var w' := HandleSpec(w, identity, ms[0], c).world;
    assert Settled(w', identity, user, conv, e, n + 1, we);
  }

  /** Replaying `ms` from `w` answers `reply` to the first message and
      goes on from `w'` a pause later. */
  predicate Replies(w: World, identity: string, ms: seq<string>, now: int, dates: DateLib, reply: Option<string>, w': World) {
    && WellFormed(w) && WellFormed(w') && ms != []
    && Replay(w, identity, ms, now, dates) ==
       (Replay(w', identity, ms[1..], now + Pause, dates).0,
        [reply] + Replay(w', identity, ms[1..], now + Pause, dates).1)
  }

  /** The opener of a fresh phone leaves a settled world from which the
      rest is replayed. */
  lemma OpenFirst(w: World, identity: string, ms: seq<string>, now: int, dates: DateLib)
    requires Fresh(w, identity, now) && ms != [] && Keyword(ms[0]) == "start"
    ensures exists w' ::
      && Replies(w, identity, ms, now, dates, Some(InitialPrompt), w')
      && Settled(w', identity, Database.User(1, identity, 0), Redis.CachedConversation(1, Initial, Form(InitialForm)),
                 now + Redis.DefaultExpiry * 1000, 1, now + Redis.DefaultExpiry * 1000)
  {
    var c := Ctx(now, dates, {});
    OpeningStep(w, identity, ms[0], c);
    StartedSettles(w, identity, ms[0], now);
    ReplayFirst(w, identity, ms, now, dates);
    var w' := Started(OpenedWorld(w, identity, ms[0], now), identity, now);
    assert Replies(w, identity, ms, now, dates, Some(InitialPrompt), w');
  }

  /** The cached conversation of a settled world is well formed. */
  lemma SettledDoc(w: World, identity: string, user: Database.User, conv: Redis.CachedConversation, e: int, n: int, we: int)
    requires Settled(w, identity, user, conv, e, n, we)
    ensures DocOk(conv.state, conv.data)
  {
    assert w.cache[Redis.ConvKey(identity)].value.Doc?;
  }

  /** An accepted first message moves the settled conversation to the next
      state, storing the answer under the state it was given in, and the
      rest is replayed from there. */
  lemma AdvanceFirst(w: World, identity: string, user: Database.User, conv: Redis.CachedConversation, e: int, n: int, we: int,
                     ms: seq<string>, now: int, dates: DateLib, next: State, data: Data, reply: Option<string>)
    requires Settled(w, identity, user, conv, e, n, we) && HasEntry(conv.state) && ms != []
    requires now <= e && now <= we && 1 <= n < Redis.MaxRequests
    requires Keyword(ms[0]) != "cancel" && Keyword(ms[0]) != "stop" && ValidateInput(conv.state, ms[0])
    requires GetNextState(conv.state, ms[0]) == Some(next) && HasEntry(next)
    requires DocOk(conv.state, conv.data) && data == Answered(conv, ms[0], now)
    requires reply == GetPrompt(next, if data.Form? then Some(data.form) else None, dates)
    ensures data.Form?
    ensures exists w' ::
      && Replies(w, identity, ms, now, dates, reply, w')
      && Settled(w', identity, user, Redis.CachedConversation(conv.id, next, data), now + Redis.DefaultExpiry * 1000, n + 1, we)
  {
    AdvancedStep(w, identity, user, conv, e, n, we, ms[0], now, dates, next, data);
    var o := HandleSpec(w, identity, ms[0], Ctx(now, dates, {}));
    ReplayFirst(w, identity, ms, now, dates);
    assert Replies(w, identity, ms, now, dates, reply, o.world);
  }
}
