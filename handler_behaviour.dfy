/**
 * How the message handler answers and what it writes, branch by branch, and
 * the behaviours that follow over several messages: an active conversation
 * cannot be restarted, answers are stored one state late, and cancelled or
 * completed conversations are found again for an hour.
 */
module HandlerBehaviour {
  import opened Wrappers
  import opened JsText
  import opened ConversationStates
  import Redis
  import Database
  import opened SmsHandler
  import opened HandlerProperties

  /** The counter key never holds a document, so counting never fails in a
      well-formed world. */
  lemma RateCheckDefined(w: World, identity: string, now: int)
    requires WellFormed(w)
    ensures Redis.CheckRateLimit(w.cache, identity, now, Redis.MaxRequests, Redis.RateWindow).Some?
  {
    RateKeyIsNot(identity);
  }

  /** A message over the limit is answered with the fixed text and reads or
      writes no conversation: only its log line and the counter change. */
  lemma RateLimitedTouchesNothing(w: World, identity: string, message: string, c: Ctx)
    requires WellFormed(w) && 1 !in c.failing && 3 !in c.failing
    requires Redis.Counter(w.cache, Redis.RateKey(identity), c.now) >= Redis.MaxRequests
    ensures var o := HandleSpec(w, identity, message, c);
      && o.reply == Some(TooManyText) && o.dispatch.None?
      && o.world.db == Logged(w, identity, message, c).db
      && (forall key :: key != Redis.RateKey(identity) ==>
            (key in o.world.cache <==> key in w.cache) && (key in w.cache ==> o.world.cache[key] == w.cache[key]))
  {
    RateCheckDefined(w, identity, c.now);
  }

  /** An INCR that throws turns into the apology, with nothing written but
      the log line. */
  lemma EarlyThrowApologises(w: World, identity: string, message: string, c: Ctx)
    requires WellFormed(w) && 1 in c.failing
    ensures HandleSpec(w, identity, message, c) == Apology(Logged(w, identity, message, c))
  {
  }

  /** An EXPIRE that throws after the first INCR of a window turns into the
      apology and leaves the counter at 1 with no expiry. */
  lemma ExpireThrowLeavesCounter(w: World, identity: string, message: string, c: Ctx)
    requires WellFormed(w) && 1 !in c.failing && 2 in c.failing
    requires !Redis.Live(w.cache, Redis.RateKey(identity), c.now)
    ensures var w0 := Logged(w, identity, message, c);
      HandleSpec(w, identity, message, c) ==
        Apology(w0.(cache := w0.cache[Redis.RateKey(identity) := Redis.Entry(Redis.Count(1), None)]))
  {
  }

  /** A TTL that throws turns into the apology, after the counter was
      raised (and its expiry set on the window's first message). */
  lemma TtlThrowKeepsCount(w: World, identity: string, message: string, c: Ctx)
    requires WellFormed(w) && 1 !in c.failing && 3 in c.failing
    requires 2 in c.failing ==> Redis.Counter(w.cache, Redis.RateKey(identity), c.now) != 0
    ensures var w0 := Logged(w, identity, message, c);
      && Redis.CheckRateLimit(w0.cache, identity, c.now, Redis.MaxRequests, Redis.RateWindow).Some?
      && HandleSpec(w, identity, message, c) ==
           Apology(w0.(cache := Redis.CheckRateLimit(w0.cache, identity, c.now, Redis.MaxRequests, Redis.RateWindow).value.0))
  {
    RateCheckDefined(w, identity, c.now);
  }

  /** A user insert that throws turns into the apology, after the counter
      was raised. The insert is issued only when the lookup does not find the
      identity's row; a found user is routed as if nothing had failed. */
  lemma UserThrowApologises(w: World, identity: string, message: string, c: Ctx)
    requires WellFormed(w) && 4 in c.failing
    ensures var w0 := Logged(w, identity, message, c);
      var (cache1, rate) := Redis.RateCheckRun(w0.cache, identity, c.now, Redis.MaxRequests, Redis.RateWindow, RateFaultsOf(c));
      var w1 := w0.(cache := cache1);
      HandleSpec(w, identity, message, c) ==
        if rate.Some? && !rate.value.allowed then Outcome(w1, Some(TooManyText), None)
        else if rate.None? || !Database.FindsUser(w.db.users, identity) then Apology(w1)
        else
          (RateCheckKeeps(w0, identity, c.now, RateFaultsOf(c));
           RouteSpec(w1, Database.CreateOrGetUser(w.db.users, identity).1, identity, message, c))
  {
  }

  /** A counter left without an expiry locks the identity out: once it has
      reached the limit, every later message, at any time, is refused and
      leaves the counter one higher and still without an expiry. */
  lemma LockedOutForGood(w: World, identity: string, message: string, c: Ctx, n: int)
    requires WellFormed(w) && 1 !in c.failing && 3 !in c.failing && n >= Redis.MaxRequests
    requires Redis.RateKey(identity) in w.cache && w.cache[Redis.RateKey(identity)] == Redis.Entry(Redis.Count(n), None)
    ensures var o := HandleSpec(w, identity, message, c);
      && o.reply == Some(TooManyText)
      && Redis.RateKey(identity) in o.world.cache
      && o.world.cache[Redis.RateKey(identity)] == Redis.Entry(Redis.Count(n + 1), None)
  {
    RateCheckDefined(w, identity, c.now);
  }

  /** `logSMS` never throws: a lost log line changes nothing else. */
  lemma LogOnlyAppends(w: World, identity: string, message: string, c: Ctx)
    ensures var w0 := Logged(w, identity, message, c);
      && w0.cache == w.cache
      && w0.db == w.db.(logs := w0.db.logs)
      && w0.db.logs == (if 0 in c.failing then w.db.logs else w.db.logs + [Database.SmsLog(identity, "inbound", message)])
  {
  }

  /** An active conversation in the cache is always continued, whatever the
      message says: `start`, `hello` and `hi` open a conversation only when
      none is found. */
  lemma NoStartOver(w: World, user: Database.User, identity: string, message: string, c: Ctx)
    requires WellFormed(w) && 5 !in c.failing
    requires Redis.GetConversationState(w.cache, identity, c.now).Some?
    ensures var conv := Redis.GetConversationState(w.cache, identity, c.now).value;
      DocOk(conv.state, conv.data) &&
      RouteSpec(w, user, identity, message, c) == ContinueSpec(w, user, identity, conv, message, c, 6)
  {
    CachedDocOk(w, identity, c.now);
  }

  /** On a cache miss the durable conversation is cached as
      `{id, state, data}` and then continued; reading the cache back gives
      exactly that document. */
  lemma CacheMissReloads(w: World, user: Database.User, identity: string, message: string, c: Ctx)
    requires WellFormed(w) && 5 !in c.failing && 6 !in c.failing && 7 !in c.failing
    requires Redis.GetConversationState(w.cache, identity, c.now).None?
    requires Database.GetActiveConversation(w.db.conversations, user.id, c.now).Some?
    ensures var row := Database.GetActiveConversation(w.db.conversations, user.id, c.now).value;
      var conv := Redis.CachedConversation(row.id, row.state, row.data);
      var w1 := w.(cache := Redis.SetConversationState(w.cache, identity, conv, c.now));
      && Redis.GetConversationState(w1.cache, identity, c.now) == Some(conv)
      && DocOk(conv.state, conv.data)
      && RouteSpec(w, user, identity, message, c) == ContinueSpec(w1, user, identity, conv, message, c, 8)
  {
    RowDocOk(w, user.id, c.now);
    var row := Database.GetActiveConversation(w.db.conversations, user.id, c.now).value;
    Redis.SetThenGet(w.cache, identity, Redis.CachedConversation(row.id, row.state, row.data), c.now, c.now);
  }

  /** With no conversation found, `help` and `status` answer and create
      nothing, and any other text except the three openers gets the
      invitation. */
  lemma NewcomerReplies(w: World, user: Database.User, identity: string, message: string, c: Ctx, k: nat)
    ensures Keyword(message) == "help" ==> StartSpec(w, user, identity, message, c, k) == Outcome(w, Some(HelpText), None)
    ensures Keyword(message) == "status" ==> StartSpec(w, user, identity, message, c, k) == Outcome(w, Some(StatusText(user.totalRecordings)), None)
    ensures Keyword(message) !in {"help", "status", "start", "hello", "hi"} ==>
      StartSpec(w, user, identity, message, c, k) == Outcome(w, Some(InvitationText), None)
  {
  }

  /** An opener creates a conversation in INITIAL with the empty form,
      caches it, and asks for the storyteller's name. */
  lemma OpenerCreates(w: World, user: Database.User, identity: string, message: string, c: Ctx, k: nat)
    requires Keyword(message) in {"start", "hello", "hi"}
    requires k !in c.failing && k + 1 !in c.failing
    ensures var o := StartSpec(w, user, identity, message, c, k);
      var row := Database.ConversationRow(|w.db.conversations| + 1, user.id, Initial, Form(InitialForm), c.now, c.now + Database.ConversationLifetime);
      && o.reply == Some(InitialPrompt) && o.dispatch.None?
      && o.world.db == w.db.(conversations := w.db.conversations + [row])
      && Redis.GetConversationState(o.world.cache, identity, c.now) == Some(Redis.CachedConversation(row.id, Initial, Form(InitialForm)))
  {
    var row := Database.ConversationRow(|w.db.conversations| + 1, user.id, Initial, Form(InitialForm), c.now, c.now + Database.ConversationLifetime);
    var doc := Redis.CachedConversation(row.id, Initial, Form(InitialForm));
    OpenerOutcome(w, user, identity, message, c, k);
    Redis.SetThenGet(w.cache, identity, doc, c.now, c.now);
  }

  lemma OpenerOutcome(w: World, user: Database.User, identity: string, message: string, c: Ctx, k: nat)
    requires Keyword(message) in {"start", "hello", "hi"}
    requires k !in c.failing && k + 1 !in c.failing
    ensures var row := Database.ConversationRow(|w.db.conversations| + 1, user.id, Initial, Form(InitialForm), c.now, c.now + Database.ConversationLifetime);
      var doc := Redis.CachedConversation(row.id, Initial, Form(InitialForm));
      StartSpec(w, user, identity, message, c, k) ==
        Outcome(World(Redis.SetConversationState(w.cache, identity, doc, c.now), w.db.(conversations := w.db.conversations + [row])),
                Some(InitialPrompt), None)
  {
    OpenerIsNoQuery(Keyword(message));
    OpenerBranch(w, user, identity, message, c, k);
    InitialPromptIsStatic(None, c.dates);
  }

  lemma OpenerBranch(w: World, user: Database.User, identity: string, message: string, c: Ctx, k: nat)
    requires Keyword(message) != "help" && Keyword(message) != "status"
    requires Keyword(message) == "start" || Keyword(message) == "hello" || Keyword(message) == "hi"
    requires k !in c.failing && k + 1 !in c.failing
    ensures var row := Database.ConversationRow(|w.db.conversations| + 1, user.id, Initial, Form(InitialForm), c.now, c.now + Database.ConversationLifetime);
      var doc := Redis.CachedConversation(row.id, Initial, Form(InitialForm));
      StartSpec(w, user, identity, message, c, k) ==
        Outcome(World(Redis.SetConversationState(w.cache, identity, doc, c.now), w.db.(conversations := w.db.conversations + [row])),
                GetPrompt(Initial, None, c.dates), None)
  {
  }

  lemma OpenerIsNoQuery(key: string)
    requires key in {"start", "hello", "hi"}
    ensures key != "help" && key != "status" && (key == "start" || key == "hello" || key == "hi")
  {
  }

  /** The durable row a cancel writes: CANCELLED with `{}` data and a fresh
      hour; every other row stays as it was. */
  predicate CancelledRow(rows: seq<Database.ConversationRow>, rows': seq<Database.ConversationRow>, id: nat, now: int)
    requires 1 <= id <= |rows|
  {
    && |rows'| == |rows|
    && rows'[id - 1] == rows[id - 1].(state := Cancelled, data := Cleared, expiresAt := now + Database.ConversationLifetime)
    && forall i :: 0 <= i < |rows| && i != id - 1 ==> rows'[i] == rows[i]
  }

  /** `cancelConversation` on a stored conversation: the cached copy is gone
      and the durable record is CANCELLED; users, requests and logs are
      untouched. */
  lemma CancelWrites(w: World, identity: string, id: nat, c: Ctx, k: nat)
    requires WellFormed(w) && 1 <= id <= |w.db.conversations|
    requires k !in c.failing && k + 1 !in c.failing
    ensures var r := CancelSpec(w, identity, id, c, k);
      && !r.threw
      && Redis.GetConversationState(r.world.cache, identity, c.now).None?
      && r.world.db == w.db.(conversations := r.world.db.conversations)
      && CancelledRow(w.db.conversations, r.world.db.conversations, id, c.now)
  {
    assert w.db.conversations[id - 1].id == id;
  }

  /** 'cancel' and 'stop' (in any case, trimmed) are checked before the
      input is validated: in every state they cancel. */
  lemma CancelCheckedFirst(w: World, user: Database.User, identity: string, conv: Redis.CachedConversation, message: string, c: Ctx, k: nat)
    requires WellFormed(w) && DocOk(conv.state, conv.data) && 1 <= conv.id <= |w.db.conversations|
    requires Keyword(message) == "cancel" || Keyword(message) == "stop"
    requires k !in c.failing && k + 1 !in c.failing
    ensures var o := ContinueSpec(w, user, identity, conv, message, c, k);
      && o.reply == Some(CancelledText) && o.dispatch.None?
      && Redis.GetConversationState(o.world.cache, identity, c.now).None?
      && o.world.db == w.db.(conversations := o.world.db.conversations)
      && CancelledRow(w.db.conversations, o.world.db.conversations, conv.id, c.now)
  {
    CancelWrites(w, identity, conv.id, c, k);
  }

  /** Input the current state rejects gets that state's error text and
      changes nothing at all. */
  lemma RejectedChangesNothing(w: World, user: Database.User, identity: string, conv: Redis.CachedConversation, message: string, c: Ctx, k: nat)
    requires DocOk(conv.state, conv.data)
    requires Keyword(message) != "cancel" && Keyword(message) != "stop"
    requires !ValidateInput(conv.state, message)
    ensures ContinueSpec(w, user, identity, conv, message, c, k) == Outcome(w, Some(GetError(conv.state)), None)
  {
  }

  /** Answers are stored one state late: the prompt shown on entering
      COLLECTING_NAME asks for the phone number, yet the reply to it is
      stored, untrimmed, as the name; the reply to the INITIAL prompt (which
      asks for the name) is stored nowhere, and neither is the reply in
      CONFIRMING. */
  lemma AnswersLag(conv: Redis.CachedConversation, message: string, now: int, dates: DateLib)
    requires conv.data.Form?
    ensures conv.state == Initial || conv.state == Confirming ==> Answered(conv, message, now) == conv.data
    ensures conv.state == CollectingName ==>
      Answered(conv, message, now) == Form(conv.data.form.(storyteller := conv.data.form.storyteller.(name := Some(message))))
    ensures GetPrompt(CollectingName, Some(conv.data.form), dates) == Some(AskPhoneText(ShowUndefined(conv.data.form.storyteller.name)))
    ensures GetPrompt(Initial, Some(conv.data.form), dates) == Some(InitialPrompt)
  {
    InitialPromptIsStatic(Some(conv.data.form), dates);
  }

  /** Moving on to a state of the dialogue writes the same state and data to
      both tiers and asks that state's question. */
  lemma AdvanceWrites(w: World, identity: string, conv: Redis.CachedConversation, c: Ctx, k: nat)
    requires WellFormed(w) && conv.data.Form? && 1 <= conv.id <= |w.db.conversations|
    requires k !in c.failing && k + 1 !in c.failing
    ensures var o := AdvanceSpec(w, identity, conv, c, k);
      var rows := w.db.conversations;
      && o.reply == GetPrompt(conv.state, Some(conv.data.form), c.dates) && o.dispatch.None?
      && Redis.GetConversationState(o.world.cache, identity, c.now) == Some(conv)
      && o.world.db == w.db.(conversations := o.world.db.conversations)
      && |o.world.db.conversations| == |rows|
      && o.world.db.conversations[conv.id - 1] ==
           rows[conv.id - 1].(state := conv.state, data := conv.data, expiresAt := c.now + Database.ConversationLifetime)
      && forall i :: 0 <= i < |rows| && i != conv.id - 1 ==> o.world.db.conversations[i] == rows[i]
  {
    assert w.db.conversations[conv.id - 1].id == conv.id;
    Redis.SetThenGet(w.cache, identity, conv, c.now, c.now);
  }

  /** Completion records exactly one story request, drops the cached copy
      and leaves the durable conversation as it was; the request is handed
      on for an immediate call only when the time chosen was 'now'. */
  lemma CompletionRecordsOnce(w: World, user: Database.User, identity: string, form: FormData, c: Ctx, k: nat)
    requires k !in c.failing && k + 1 !in c.failing
    requires Database.ScheduledFor(form, c.now, c.dates).Some?
    ensures var o := CompleteSpec(w, user, identity, form, c, k);
      var req := Database.CreateStoryRequest(w.db.requests, user.id, form, c.now, c.dates).value.1;
      && o.world.db == w.db.(requests := w.db.requests + [req])
      && req.status == Database.Pending && req.formData == form
      && Redis.GetConversationState(o.world.cache, identity, c.now).None?
      && (form.scheduledTime == Some(Now) ==>
            o.reply == Some(CallingNowText(ShowUndefined(form.storyteller.name))) && o.dispatch == Some(req))
      && (form.scheduledTime != Some(Now) ==>
            o.reply == Some(CallLaterText(ShowUndefined(form.storyteller.name))) && o.dispatch.None?)
  {
  }

  /** A time that does not parse as a date makes completion fail with
      nothing written. */
  lemma CompletionNeedsDate(w: World, user: Database.User, identity: string, form: FormData, c: Ctx, k: nat)
    requires Database.ScheduledFor(form, c.now, c.dates).None?
    ensures CompleteSpec(w, user, identity, form, c, k) == Outcome(w, Some(CompletionFailedText), None)
  {
  }

  lemma FoundHasId(w: World, userId: nat, now: int)
    requires WellFormed(w) && Database.GetActiveConversation(w.db.conversations, userId, now).Some?
    ensures var row := Database.GetActiveConversation(w.db.conversations, userId, now).value;
      1 <= row.id <= |w.db.conversations| && w.db.conversations[row.id - 1] == row
  {
    var row := Database.GetActiveConversation(w.db.conversations, userId, now).value;
    var i :| 0 <= i < |w.db.conversations| && w.db.conversations[i] == row;
  }

  /** Cancelled conversations come back. A cancelled record is found again
      on the next message (the lookup ignores the state), and with no table
      entry for CANCELLED the handler cancels it once more: whatever is sent,
      `start` included, the reply is the restart text, and the record is
      written CANCELLED again with a fresh hour, so it is found again by
      every message sent within that hour. */
  lemma CancelledComesBack(w: World, user: Database.User, identity: string, message: string, c: Ctx, later: int)
    requires WellFormed(w)
    requires 5 !in c.failing && 6 !in c.failing && 7 !in c.failing && 8 !in c.failing && 9 !in c.failing
    requires Redis.GetConversationState(w.cache, identity, c.now).None?
    requires Database.GetActiveConversation(w.db.conversations, user.id, c.now).Some?
    requires Database.GetActiveConversation(w.db.conversations, user.id, c.now).value.state == Cancelled
    requires c.now <= later < c.now + Database.ConversationLifetime
    ensures var row := Database.GetActiveConversation(w.db.conversations, user.id, c.now).value;
      var o := RouteSpec(w, user, identity, message, c);
      && o.reply == Some(if Keyword(message) == "cancel" || Keyword(message) == "stop" then CancelledText else RestartText)
      && o.dispatch.None?
      && Redis.GetConversationState(o.world.cache, identity, later).None?
      && Database.GetActiveConversation(o.world.db.conversations, user.id, later) ==
           Some(row.(data := Cleared, expiresAt := c.now + Database.ConversationLifetime))
  {
    var row := Database.GetActiveConversation(w.db.conversations, user.id, c.now).value;
    var conv := Redis.CachedConversation(row.id, row.state, row.data);
    var w1 := w.(cache := Redis.SetConversationState(w.cache, identity, conv, c.now));
    CacheMissReloads(w, user, identity, message, c);
    FoundHasId(w, user.id, c.now);
    CacheSetKeeps(w, identity, conv, c.now);
    CancelWrites(w1, identity, row.id, c, 8);
    EntriesAndValidators(Cancelled, message);
    Database.RewrittenStaysFound(w.db.conversations, user.id, Cancelled, Cleared, c.now, later);
    var o := ContinueSpec(w1, user, identity, conv, message, c, 8);
    assert o.world == CancelSpec(w1, identity, row.id, c, 8).world;
    assert Redis.GetConversationState(o.world.cache, identity, later).None?;
  }

  /** 'yes' in any letter case is its own keyword. */
  lemma YesKeyword(message: string)
    requires Lower(message) == "yes"
    ensures Keyword(message) == "yes"
  {
    assert |message| == 3;
    LowerKeepsWhitespace(message[0]);
    LowerKeepsWhitespace(message[2]);
    assert Lower(message)[0] == LowerChar(message[0]) == 'y';
    assert Lower(message)[2] == LowerChar(message[2]) == 's';
    TrimUnchanged(Lower(message));
  }

  /** 'yes' in CONFIRMING, in any letter case, completes with the form as
      it stands. */
  lemma YesCompletes(w: World, user: Database.User, identity: string, conv: Redis.CachedConversation, message: string, c: Ctx, k: nat)
    requires conv.state == Confirming && conv.data.Form? && Lower(message) == "yes"
    ensures ContinueSpec(w, user, identity, conv, message, c, k) == CompleteSpec(w, user, identity, conv.data.form, c, k)
  {
    YesKeyword(message);
    ConfirmRule(message, Some(conv.data.form), c.dates);
    ConfirmingKeepsData(conv, message, c.now);
    ContinueAccepts(w, user, identity, conv, message, c, k);
    AcceptCompletes(w, user, identity, conv, message, c, k);
  }

  lemma ConfirmingKeepsData(conv: Redis.CachedConversation, message: string, now: int)
    requires conv.state == Confirming && conv.data.Form?
    ensures Answered(conv, message, now) == conv.data
  {
  }

  lemma ContinueAccepts(w: World, user: Database.User, identity: string, conv: Redis.CachedConversation, message: string, c: Ctx, k: nat)
    requires DocOk(conv.state, conv.data)
    requires Keyword(message) == "yes" && ValidateInput(conv.state, message)
    ensures ContinueSpec(w, user, identity, conv, message, c, k) == AcceptSpec(w, user, identity, conv, message, c, k)
  {
  }

  lemma AcceptCompletes(w: World, user: Database.User, identity: string, conv: Redis.CachedConversation, message: string, c: Ctx, k: nat)
    requires DocOk(conv.state, conv.data) && conv.data.Form?
    requires GetNextState(conv.state, message) == Some(Completed) && Answered(conv, message, c.now) == conv.data
    ensures AcceptSpec(w, user, identity, conv, message, c, k) == CompleteSpec(w, user, identity, conv.data.form, c, k)
  {
  }

  /** Completed conversations come back. Completion drops only the cached
      copy, so the durable record stays in CONFIRMING and is found again by
      the next message; another 'yes' (in any letter case) within its hour
      records another story
      request, and leaves the world just as ready for a third. */
  lemma CompletedComesBack(w: World, user: Database.User, identity: string, message: string, c: Ctx, later: int)
    requires WellFormed(w) && Lower(message) == "yes"
    requires 5 !in c.failing && 6 !in c.failing && 7 !in c.failing && 8 !in c.failing && 9 !in c.failing
    requires Redis.GetConversationState(w.cache, identity, c.now).None?
    requires Database.GetActiveConversation(w.db.conversations, user.id, c.now).Some?
    requires Database.GetActiveConversation(w.db.conversations, user.id, c.now).value.state == Confirming
    requires var row := Database.GetActiveConversation(w.db.conversations, user.id, c.now).value;
      row.data.Form? && Database.ScheduledFor(row.data.form, c.now, c.dates).Some?
    requires var row := Database.GetActiveConversation(w.db.conversations, user.id, c.now).value;
      c.now <= later < row.expiresAt
    ensures var row := Database.GetActiveConversation(w.db.conversations, user.id, c.now).value;
      var o := RouteSpec(w, user, identity, message, c);
      && |o.world.db.requests| == |w.db.requests| + 1
      && o.world.db.requests[|w.db.requests|].formData == row.data.form
      && o.world.db.conversations == w.db.conversations
      && Redis.GetConversationState(o.world.cache, identity, later).None?
      && Database.GetActiveConversation(o.world.db.conversations, user.id, later) == Some(row)
  {
    var row := Database.GetActiveConversation(w.db.conversations, user.id, c.now).value;
    var conv := Redis.CachedConversation(row.id, row.state, row.data);
    var w1 := w.(cache := Redis.SetConversationState(w.cache, identity, conv, c.now));
    var o := CompleteSpec(w1, user, identity, row.data.form, c, 8);
    assert RouteSpec(w, user, identity, message, c) == o by {
      CacheMissReloads(w, user, identity, message, c);
      YesCompletes(w1, user, identity, conv, message, c, 8);
    }
    assert && |o.world.db.requests| == |w.db.requests| + 1
           && o.world.db.requests[|w.db.requests|].formData == row.data.form
           && o.world.db.conversations == w.db.conversations
           && Redis.GetConversationState(o.world.cache, identity, c.now).None? by {
      CompletionRecordsOnce(w1, user, identity, row.data.form, c, 8);
    }
    Database.FoundStaysFound(w.db.conversations, user.id, c.now, later);
    assert Redis.GetConversationState(o.world.cache, identity, later).None?;
  }

  // ---------------------------------------------------------------------
  // Dispatching a story request

  /** With no store call failing, dispatching marks the request 'calling'
      at the current time, then 'processing' with the service's ids when
      the call was placed, or 'failed' when it was not; other requests are
      untouched. */
  lemma ProcessStatuses(db: Database.Tables, req: Database.StoryRequest, result: VapiClient.CallResult, c: Ctx)
    requires 0 !in c.failing && 1 !in c.failing && 2 !in c.failing
    requires exists i :: 0 <= i < |db.requests| && db.requests[i].id == req.id
    ensures var p := DispatchSpec(db, req, result, c);
      && |p.db.requests| == |db.requests|
      && p.db.conversations == db.conversations
      && (forall i :: 0 <= i < |db.requests| && db.requests[i].id != req.id ==> p.db.requests[i] == db.requests[i])
      && (forall i :: 0 <= i < |db.requests| && db.requests[i].id == req.id ==>
            && p.db.requests[i].status == (if result.success then Database.Processing else Database.Failed)
            && p.db.requests[i].calledAt == Some(c.now)
            && (result.success ==> p.db.requests[i].assistantId == result.assistantId && p.db.requests[i].callId == result.callId))
      && (result.success <==> p.notification.None?)
  {
    PatchExisting(db, req.id, Database.MarkCalling(c.now), c, 0);
    var db0 := PatchRun(db, req.id, Database.MarkCalling(c.now), c, 0).0;
    if result.success {
      PatchExisting(db0, req.id, Database.MarkProcessing(result.assistantId, result.callId), c, 1);
    } else {
      PatchExisting(db0, req.id, Database.MarkFailed, c, 1);
    }
  }

  lemma PatchExisting(db: Database.Tables, id: nat, p: Database.Patch, c: Ctx, k: nat)
    requires k !in c.failing
    requires exists i :: 0 <= i < |db.requests| && db.requests[i].id == id
    ensures var (db', threw) := PatchRun(db, id, p, c, k);
      && !threw
      && db' == db.(requests := db'.requests)
      && |db'.requests| == |db.requests|
      && (forall i :: 0 <= i < |db.requests| ==>
            db'.requests[i] == if db.requests[i].id == id then Database.Patched(db.requests[i], p) else db.requests[i])
      && exists i :: 0 <= i < |db'.requests| && db'.requests[i].id == id
  {
    var i :| 0 <= i < |db.requests| && db.requests[i].id == id;
    var db' := PatchRun(db, id, p, c, k).0;
    assert db'.requests[i].id == id;
  }

  /** A failed call is reported to the user found (or created) under the
      storyteller's phone number, that is to the storyteller rather than to
      the person who set the call up. */
  lemma FailureNoticeGoesToStoryteller(db: Database.Tables, req: Database.StoryRequest, result: VapiClient.CallResult, c: Ctx)
    ensures var p := DispatchSpec(db, req, result, c);
      p.notification.Some? ==>
        && p.notification.value == Notification(ShowNull(req.storytellerPhone), FailureNotice(req.storytellerName))
        && !result.success
  {
  }

  /** A store call that throws while dispatching ends in the `catch`, which
      marks the request 'failed' and sends nothing. */
  lemma ProcessThrowMarksFailed(db: Database.Tables, req: Database.StoryRequest, result: VapiClient.CallResult, c: Ctx)
    requires 0 in c.failing && 1 !in c.failing
    requires exists i :: 0 <= i < |db.requests| && db.requests[i].id == req.id
    ensures var p := DispatchSpec(db, req, result, c);
      && p.notification.None?
      && |p.db.requests| == |db.requests|
      && forall i :: 0 <= i < |db.requests| ==>
           p.db.requests[i] == if db.requests[i].id == req.id then db.requests[i].(status := Database.Failed) else db.requests[i]
  {
  }
}
