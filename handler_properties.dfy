/**
 * The store invariant `WellFormed`: every store operation the handler issues,
 * and so every message, preserves it.
 */
module HandlerProperties {
  import opened Wrappers
  import opened JsText
  import opened ConversationStates
  import Redis
  import Database
  import opened SmsHandler

  // ---------------------------------------------------------------------
  // The world invariant

  lemma ConvKeyIsConvKey(identity: string)
    ensures IsConvKey(Redis.ConvKey(identity))
  {
    assert Redis.ConvKey(identity)[..5] == "conv:";
  }

  lemma CacheSetKeeps(w: World, identity: string, conv: Redis.CachedConversation, now: int)
    requires WellFormed(w) && DocOk(conv.state, conv.data)
    ensures WellFormed(w.(cache := Redis.SetConversationState(w.cache, identity, conv, now)))
  {
    ConvKeyIsConvKey(identity);
  }

  lemma RowsUpdateKeeps(w: World, id: nat, state: State, data: Data, now: int)
    requires WellFormed(w) && DocOk(state, data)
    requires Database.UpdateConversation(w.db.conversations, id, state, data, now).Some?
    ensures WellFormed(w.(db := w.db.(conversations := Database.UpdateConversation(w.db.conversations, id, state, data, now).value)))
  {
    var rows := w.db.conversations;
    var rows' := Database.UpdateConversation(rows, id, state, data, now).value;
    forall row | row in rows' ensures DocOk(row.state, row.data) {
      var i :| 0 <= i < |rows'| && rows'[i] == row;
      assert rows[i] in rows;
    }
  }

  lemma CancelKeeps(w: World, identity: string, id: nat, c: Ctx, k: nat)
    requires WellFormed(w)
    ensures WellFormed(CancelSpec(w, identity, id, c, k).world)
  {
    if k !in c.failing {
      var w1 := w.(cache := Redis.DeleteConversationState(w.cache, identity));
      assert WellFormed(w1);
      if id != 0 && k + 1 !in c.failing && Database.UpdateConversation(w1.db.conversations, id, Cancelled, Cleared, c.now).Some? {
        RowsUpdateKeeps(w1, id, Cancelled, Cleared, c.now);
      }
    }
  }

  lemma CreateKeeps(w: World, user: Database.User, now: int)
    requires WellFormed(w)
    ensures WellFormed(w.(db := w.db.(conversations := Database.CreateConversation(w.db.conversations, user.id, Initial, Form(InitialForm), now).0)))
  {
  }

  lemma StartKeeps(w: World, user: Database.User, identity: string, message: string, c: Ctx, k: nat)
    requires WellFormed(w)
    ensures WellFormed(StartSpec(w, user, identity, message, c, k).world)
  {
    var key := Keyword(message);
    if key != "help" && key != "status" && (key == "start" || key == "hello" || key == "hi") && k !in c.failing {
      var (rows, row) := Database.CreateConversation(w.db.conversations, user.id, Initial, Form(InitialForm), c.now);
      var w1 := w.(db := w.db.(conversations := rows));
      CreateKeeps(w, user, c.now);
      CacheSetKeeps(w1, identity, Redis.CachedConversation(row.id, row.state, row.data), c.now);
    }
  }

  lemma CompleteKeeps(w: World, user: Database.User, identity: string, form: FormData, c: Ctx, k: nat)
    requires WellFormed(w)
    ensures WellFormed(CompleteSpec(w, user, identity, form, c, k).world)
  {
  }

  lemma AdvanceKeeps(w: World, identity: string, conv: Redis.CachedConversation, c: Ctx, k: nat)
    requires WellFormed(w) && conv.data.Form?
    ensures WellFormed(AdvanceSpec(w, identity, conv, c, k).world)
  {
    if k !in c.failing {
      CacheSetKeeps(w, identity, conv, c.now);
      var w1 := w.(cache := Redis.SetConversationState(w.cache, identity, conv, c.now));
      if k + 1 !in c.failing && Database.UpdateConversation(w1.db.conversations, conv.id, conv.state, conv.data, c.now).Some? {
        RowsUpdateKeeps(w1, conv.id, conv.state, conv.data, c.now);
      }
    }
  }

  lemma CancelOutcomeKeeps(w: World, identity: string, id: nat, c: Ctx, k: nat, text: string)
    requires WellFormed(w)
    ensures WellFormed(CancelOutcome(w, identity, id, c, k, text).world)
  {
    CancelKeeps(w, identity, id, c, k);
  }

  lemma AcceptKeeps(w: World, user: Database.User, identity: string, conv: Redis.CachedConversation, message: string, c: Ctx, k: nat)
    requires WellFormed(w) && DocOk(conv.state, conv.data)
    ensures WellFormed(AcceptSpec(w, user, identity, conv, message, c, k).world)
  {
    var data := Answered(conv, message, c.now);
    match GetNextState(conv.state, message)
    case None => CancelOutcomeKeeps(w, identity, conv.id, c, k, RestartText);
    case Some(next) =>
      if next == Completed {
        CompleteKeeps(w, user, identity, data.form, c, k);
      } else if next == Cancelled {
        CancelOutcomeKeeps(w, identity, conv.id, c, k, SetupCancelledText);
      } else {
        AdvanceKeeps(w, identity, Redis.CachedConversation(conv.id, next, data), c, k);
      }
  }

  lemma ContinueKeeps(w: World, user: Database.User, identity: string, conv: Redis.CachedConversation, message: string, c: Ctx, k: nat)
    requires WellFormed(w) && DocOk(conv.state, conv.data)
    ensures WellFormed(ContinueSpec(w, user, identity, conv, message, c, k).world)
  {
    var key := Keyword(message);
    if key == "cancel" || key == "stop" {
      CancelOutcomeKeeps(w, identity, conv.id, c, k, CancelledText);
    } else if ValidateInput(conv.state, message) {
      AcceptKeeps(w, user, identity, conv, message, c, k);
    }
  }



  lemma CachedDocOk(w: World, identity: string, now: int)
    requires WellFormed(w) && Redis.GetConversationState(w.cache, identity, now).Some?
    ensures var conv := Redis.GetConversationState(w.cache, identity, now).value;
      DocOk(conv.state, conv.data)
  {
    assert w.cache[Redis.ConvKey(identity)].value == Redis.Doc(Redis.GetConversationState(w.cache, identity, now).value);
  }

  lemma RowDocOk(w: World, userId: nat, now: int)
    requires WellFormed(w) && Database.GetActiveConversation(w.db.conversations, userId, now).Some?
    ensures var row := Database.GetActiveConversation(w.db.conversations, userId, now).value;
      DocOk(row.state, row.data)
  {
  }

  lemma RouteKeeps(w: World, user: Database.User, identity: string, message: string, c: Ctx)
    requires WellFormed(w)
    ensures WellFormed(RouteSpec(w, user, identity, message, c).world)
  {
    if 5 in c.failing {
      return;
    }
    var cached := Redis.GetConversationState(w.cache, identity, c.now);
    if cached.Some? {
      CachedDocOk(w, identity, c.now);
      ContinueKeeps(w, user, identity, cached.value, message, c, 6);
      return;
    }
    if 6 in c.failing {
      return;
    }
    var found := Database.GetActiveConversation(w.db.conversations, user.id, c.now);
    if found.None? {
      StartKeeps(w, user, identity, message, c, 7);
      return;
    }
    var row := found.value;
    var conv := Redis.CachedConversation(row.id, row.state, row.data);
    RowDocOk(w, user.id, c.now);
    CacheSetKeeps(w, identity, conv, c.now);
    ContinueKeeps(w.(cache := Redis.SetConversationState(w.cache, identity, conv, c.now)), user, identity, conv, message, c, 8);
  }

  /** Every message leaves the stores well formed, however many of its store
      calls throw. */
  lemma HandleKeeps(w: World, identity: string, message: string, c: Ctx)
    requires WellFormed(w)
    ensures WellFormed(HandleSpec(w, identity, message, c).world)
  {
    var w0 := Logged(w, identity, message, c);
    assert WellFormed(w0);
    var (cache1, rate) := Redis.RateCheckRun(w0.cache, identity, c.now, Redis.MaxRequests, Redis.RateWindow, RateFaultsOf(c));
    var w1 := w0.(cache := cache1);
    RateCheckKeeps(w0, identity, c.now, RateFaultsOf(c));
    if rate.None? || !rate.value.allowed || (4 in c.failing && !Database.FindsUser(w1.db.users, identity)) {
      return;
    }
    var (users, user) := Database.CreateOrGetUser(w1.db.users, identity);
    UserKeeps(w1, identity);
    RouteKeeps(w1.(db := w1.db.(users := users)), user, identity, message, c);
  }
}
