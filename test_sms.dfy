/**
 * The local simulation script: thirteen messages from one phone, a second
 * apart, starting from empty stores and with no store call failing.
 * Because answers are stored one state late, the storyteller's phone
 * number is taken as the name, every later message is refused as a phone
 * number, and the conversation never gets past COLLECTING_PHONE.
 */
module TestSms {
  import opened Wrappers
  import opened JsText
  import opened ConversationStates
  import Redis
  import Database
  import opened SmsHandler
  import opened Scenario

  /** The phone the script texts from, which it also sends as the
      storyteller's number. */
  const Phone := "+14025705917"

  const Messages := [
    "start",
    "Grandma Rose",
    Phone,
    Relationship,
    Personality,
    Background,
    "Her secret " + "pierogi recipe",
    "Why she " + "left Poland",
    "done",
    "none",
    "1",
    "1",
    "yes"
  ]

  /** The answers about the storyteller that the script sends after the
      phone number. */
  const Relationship := "grandmother"
  const Personality := "Very formal at first " + "but warms up when " + "talking about cooking"
  const Background := "Polish immigrant who " + "came to America in " + "1965"

  /** The messages the script sends after the phone number. */
  const LaterMessages := set i | 3 <= i < |Messages| :: Messages[i]

  /** A message whose first character is neither blank nor a 'c' or an 's'
      in either case is not a cancelling keyword. */
  lemma NotCommand(m: string)
    requires m != [] && !IsWhitespace(m[0]) && LowerChar(m[0]) != 'c' && LowerChar(m[0]) != 's'
    ensures Keyword(m) != "cancel" && Keyword(m) != "stop"
  {
    var l := Lower(m);
    LowerKeepsWhitespace(m[0]);
    assert TrimStart(l) == l;
    assert Keyword(m) != [] && Keyword(m)[0] == l[0];
  }

  /** A message with fewer than ten digits that does not cancel is refused
      at COLLECTING_PHONE. */
  lemma RefusedAsPhone(m: string)
    requires m != [] && !IsWhitespace(m[0]) && LowerChar(m[0]) != 'c' && LowerChar(m[0]) != 's'
    requires |Digits(m)| < 10
    ensures Refused(CollectingPhone, m)
  {
    NotCommand(m);
    PhoneRule(m, InitialForm, 0);
  }

  /** Each message after the phone number has fewer than ten digits. */
  lemma FewDigits(i: int)
    requires 3 <= i < |Messages|
    ensures |Digits(Messages[i])| < 10
  {
    if i < 6 {
      FewDigitsBefore(i);
    } else {
      FewDigitsAfter(i);
    }
  }

  lemma FewDigitsBefore(i: int)
    requires 3 <= i < 6
    ensures |Digits(Messages[i])| < 10
  {
    RelationshipDigits();
    PersonalityDigits();
    BackgroundDigits();
  }

  lemma RelationshipDigits()
    ensures Digits(Relationship) == []
  {
    DigitsOfNone(Relationship);
  }

  lemma PersonalityDigits()
    ensures Digits(Personality) == []
  {
    DigitsOfNone(Personality);
  }

  lemma BackgroundDigits()
    ensures |Digits(Background)| == 4
  {
    DigitsAppend("Polish immigrant who " + "came to America in ", "1965");
    DigitsOfNone("Polish immigrant who " + "came to America in ");
  }

  lemma FewDigitsAfter(i: int)
    requires 6 <= i < |Messages|
    ensures |Digits(Messages[i])| < 10
  {
    if i == 6 {
      DigitsOfNone("Her secret " + "pierogi recipe");
    } else if i == 7 {
      DigitsOfNone("Why she " + "left Poland");
    }
  }

  /** Each message after the phone number starts with a letter or a digit
      other than a 'c' or an 's'. */
  lemma PlainStart(i: int)
    requires 3 <= i < |Messages|
    ensures var m := Messages[i];
      m != [] && !IsWhitespace(m[0]) && LowerChar(m[0]) != 'c' && LowerChar(m[0]) != 's'
  {
  }

  /** Every message the script sends after the phone number is refused at
      COLLECTING_PHONE: none cancels, none holds ten digits. */
  lemma LaterMessagesRefused()
    ensures AllRefused(CollectingPhone, LaterMessages)
    ensures forall i | 3 <= i < |Messages| :: Messages[i] in LaterMessages
    ensures GetError(CollectingPhone) == PhoneError
  {
    ErrorTexts(CollectingPhone);
    forall i | 3 <= i < |Messages| ensures Refused(CollectingPhone, Messages[i]) {
      FewDigits(i);
      PlainStart(i);
      RefusedAsPhone(Messages[i]);
    }
  }

  /** The opener, as the handler reads it. */
  lemma OpenerFacts()
    ensures Keyword(Messages[0]) == "start"
  {
    assert Messages[0] == "start";
    assert Lower("start") == "start";
    TrimUnchanged("start");
  }

  /** "Grandma Rose", given in INITIAL: accepted, moved to COLLECTING_NAME,
      and dropped, since INITIAL keeps no field; the reply asks for the
      phone number of a storyteller who has no name yet. */
  lemma GivenNameFacts(t: int, dates: DateLib)
    ensures var m := Messages[1..][0];
      && Keyword(m) != "cancel" && Keyword(m) != "stop"
      && ValidateInput(Initial, m) && GetNextState(Initial, m) == Some(CollectingName)
      && Answered(Redis.CachedConversation(1, Initial, Form(InitialForm)), m, t) == Form(InitialForm)
      && GetPrompt(CollectingName, Some(InitialForm), dates) == Some(AskPhoneText("undefined"))
  {
    assert Messages[1..][0] == "Grandma Rose";
    NotCommand("Grandma Rose");
    NameAccepted("Grandma Rose");
    InitialAnswerDropped("Grandma Rose", t);
    NamelessPhonePrompt(dates);
  }

  lemma NameAccepted(m: string)
    ensures ValidateInput(Initial, m) && GetNextState(Initial, m) == Some(CollectingName)
  {
  }

  lemma InitialAnswerDropped(m: string, t: int)
    ensures Answered(Redis.CachedConversation(1, Initial, Form(InitialForm)), m, t) == Form(InitialForm)
  {
  }

  lemma NamelessPhonePrompt(dates: DateLib)
    ensures GetPrompt(CollectingName, Some(InitialForm), dates) == Some(AskPhoneText("undefined"))
  {
  }

  /** The phone number, given in COLLECTING_NAME: accepted as the name and
      moved to COLLECTING_PHONE, whose reply asks for the relationship to
      a storyteller now named after the number. */
  lemma GivenPhoneFacts(t: int, dates: DateLib)
    ensures var m := Messages[1..][1..][0];
      && Keyword(m) != "cancel" && Keyword(m) != "stop"
      && ValidateInput(CollectingName, m) && GetNextState(CollectingName, m) == Some(CollectingPhone)
      && Answered(Redis.CachedConversation(1, CollectingName, Form(InitialForm)), m, t) == Named
      && GetPrompt(CollectingPhone, Some(Named.form), dates) == Some(AskRelationshipText(Phone))
  {
    assert Messages[1..][1..][0] == Phone;
    NotCommand(Phone);
    PhoneAsName(t);
    NamedRelationshipPrompt(dates);
  }

  lemma PhoneAsName(t: int)
    ensures ValidateInput(CollectingName, Phone) && GetNextState(CollectingName, Phone) == Some(CollectingPhone)
    ensures Answered(Redis.CachedConversation(1, CollectingName, Form(InitialForm)), Phone, t) == Named
  {
    TrimUnchanged(Phone);
  }

  lemma NamedRelationshipPrompt(dates: DateLib)
    ensures GetPrompt(CollectingPhone, Some(Named.form), dates) == Some(AskRelationshipText(Phone))
  {
  }

  /** The second message, in INITIAL. */
  lemma GivenNameStep(w1: World, identity: string, t: int, dates: DateLib, e: int, we: int)
    requires Settled(w1, identity, Database.User(1, identity, 0), Redis.CachedConversation(1, Initial, Form(InitialForm)), e, 1, we)
    requires t <= e && t <= we
    ensures exists w2 ::
      && Replies(w1, identity, Messages[1..], t, dates, Some(AskPhoneText("undefined")), w2)
      && Settled(w2, identity, Database.User(1, identity, 0), Redis.CachedConversation(1, CollectingName, Form(InitialForm)),
                 t + Redis.DefaultExpiry * 1000, 2, we)
  {
    GivenNameFacts(t, dates);
    AdvanceFirst(w1, identity, Database.User(1, identity, 0), Redis.CachedConversation(1, Initial, Form(InitialForm)), e, 1, we,
                 Messages[1..], t, dates, CollectingName, Form(InitialForm), Some(AskPhoneText("undefined")));
  }

  /** The third message, in COLLECTING_NAME. */
  lemma GivenPhoneStep(w2: World, identity: string, t: int, dates: DateLib, e: int, we: int)
    requires Settled(w2, identity, Database.User(1, identity, 0), Redis.CachedConversation(1, CollectingName, Form(InitialForm)), e, 2, we)
    requires t <= e && t <= we
    ensures exists w3 ::
      && Replies(w2, identity, Messages[1..][1..], t, dates, Some(AskRelationshipText(Phone)), w3)
      && Settled(w3, identity, Database.User(1, identity, 0), Redis.CachedConversation(1, CollectingPhone, Named),
                 t + Redis.DefaultExpiry * 1000, 3, we)
  {
    GivenPhoneFacts(t, dates);
    AdvanceFirst(w2, identity, Database.User(1, identity, 0), Redis.CachedConversation(1, CollectingName, Form(InitialForm)), e, 2, we,
                 Messages[1..][1..], t, dates, CollectingPhone, Named, Some(AskRelationshipText(Phone)));
  }

  /** Three replies in a row: replaying `ms` from `w` gives `a`, `b` and `c`
      and then the replay of `ms[3..]` from `w3`. */
  predicate Replays3(w: World, identity: string, ms: seq<string>, now: int, dates: DateLib,
                     a: Option<string>, b: Option<string>, c: Option<string>, w3: World)
  {
    && WellFormed(w) && WellFormed(w3) && |ms| >= 3
    && Replay(w, identity, ms, now, dates) ==
       (Replay(w3, identity, ms[3..], now + 3 * Pause, dates).0,
        [a, b, c] + Replay(w3, identity, ms[3..], now + 3 * Pause, dates).1)
  }

  /** Three single replies chain into one. */
  lemma ChainThree(w: World, w1: World, w2: World, w3: World, identity: string, ms: seq<string>, now: int, dates: DateLib,
                   a: Option<string>, b: Option<string>, c: Option<string>)
    requires Replies(w, identity, ms, now, dates, a, w1)
    requires Replies(w1, identity, ms[1..], now + Pause, dates, b, w2)
    requires Replies(w2, identity, ms[1..][1..], now + 2 * Pause, dates, c, w3)
    requires |ms| >= 3
    ensures Replays3(w, identity, ms, now, dates, a, b, c, w3)
  {
    assert ms[1..][1..][1..] == ms[3..];
    var rest := Replay(w3, identity, ms[3..], now + 3 * Pause, dates);
    var r2 := Replay(w2, identity, ms[1..][1..], now + 2 * Pause, dates);
    var r1 := Replay(w1, identity, ms[1..], now + Pause, dates);
    assert r2.1 == [c] + rest.1;
    assert r1.1 == [b] + r2.1;
    assert [a] + ([b] + ([c] + rest.1)) == [a, b, c] + rest.1;
  }

  /** From a phone's empty start, the first three messages a second apart:
      the opener gets the welcome; "Grandma Rose" is answered with the
      phone question for a storyteller still called undefined (it was
      stored against INITIAL, which keeps no field); and the phone number
      is taken as the storyteller's name and answered with the
      relationship question, leaving the conversation at COLLECTING_PHONE. */
  lemma OpeningThree(w: World, identity: string, now: int, dates: DateLib)
    requires Fresh(w, identity, now)
    ensures exists w3 ::
      && Replays3(w, identity, Messages, now, dates,
                  Some(InitialPrompt), Some(AskPhoneText("undefined")), Some(AskRelationshipText(Phone)), w3)
      && Settled(w3, identity, Database.User(1, identity, 0), Redis.CachedConversation(1, CollectingPhone, Named),
                 now + 2 * Pause + Redis.DefaultExpiry * 1000, 3, now + Redis.DefaultExpiry * 1000)
  {
    var E := Redis.DefaultExpiry * 1000;
    var user := Database.User(1, identity, 0);
    OpenerFacts();
    OpenFirst(w, identity, Messages, now, dates);
    var w1 :| Replies(w, identity, Messages, now, dates, Some(InitialPrompt), w1)
              && Settled(w1, identity, user, Redis.CachedConversation(1, Initial, Form(InitialForm)), now + E, 1, now + E);
    GivenNameStep(w1, identity, now + Pause, dates, now + E, now + E);
    var w2 :| Replies(w1, identity, Messages[1..], now + Pause, dates, Some(AskPhoneText("undefined")), w2)
              && Settled(w2, identity, user, Redis.CachedConversation(1, CollectingName, Form(InitialForm)), now + Pause + E, 2, now + E);
    GivenPhoneStep(w2, identity, now + 2 * Pause, dates, now + Pause + E, now + E);
    var w3 :| Replies(w2, identity, Messages[1..][1..], now + 2 * Pause, dates, Some(AskRelationshipText(Phone)), w3)
              && Settled(w3, identity, user, Redis.CachedConversation(1, CollectingPhone, Named), now + 2 * Pause + E, 3, now + E);
    ChainThree(w, w1, w2, w3, identity, Messages, now, dates,
               Some(InitialPrompt), Some(AskPhoneText("undefined")), Some(AskRelationshipText(Phone)));
  }

  /** The form after the script's third message: only the name is set,
      and it is the phone number. */
  const Named := Form(InitialForm.(storyteller := NoStoryteller.(name := Some(Phone))))

  /** After three replies, a run of refused messages: each is answered
      with the refusal and the conversation stays as it was. */
  lemma ThenRefused(w: World, w3: World, identity: string, ms: seq<string>, now: int, dates: DateLib,
                    a: Option<string>, b: Option<string>, c: Option<string>,
                    user: Database.User, conv: Redis.CachedConversation, e: int, n: int, we: int, refused: set<string>)
    requires Replays3(w, identity, ms, now, dates, a, b, c, w3)
    requires Settled(w3, identity, user, conv, e, n, we)
    requires 1 <= n && n + |ms| - 3 <= Redis.MaxRequests
    requires now + Pause * |ms| <= e && now + Pause * |ms| <= we
    requires AllRefused(conv.state, refused) && forall i | 3 <= i < |ms| :: ms[i] in refused
    ensures var r := Replay(w, identity, ms, now, dates);
      && r.1[0] == a && r.1[1] == b && r.1[2] == c
      && (forall i | 3 <= i < |ms| :: r.1[i] == Some(GetError(conv.state)))
      && Redis.ConvKey(identity) in r.0.cache
      && r.0.cache[Redis.ConvKey(identity)].value == Redis.Doc(conv)
      && r.0.db.requests == []
  {
    var ms3 := ms[3..];
    assert forall i | 0 <= i < |ms3| :: ms3[i] in refused by {
      forall i | 0 <= i < |ms3| ensures ms3[i] in refused {
        assert ms3[i] == ms[i + 3];
      }
    }
    RefusedRun(w3, identity, user, conv, e, n, we, ms3, refused, now + 3 * Pause, dates);
    var rest := Replay(w3, identity, ms3, now + 3 * Pause, dates);
    var r := Replay(w, identity, ms, now, dates);
    assert r.1 == [a, b, c] + rest.1;
    forall i | 3 <= i < |ms| ensures r.1[i] == Some(GetError(conv.state)) {
      assert r.1[i] == rest.1[i - 3];
    }
  }

  /** From a fresh start, the script's thirteen messages a second apart:
      after the three opening replies, each of the remaining ten messages
      is refused as a phone number. The conversation is left cached at
      COLLECTING_PHONE with the phone number as the name, and no story
      request is ever created. */
  lemma ScriptStalls(w: World, identity: string, now: int, dates: DateLib)
    requires Fresh(w, identity, now)
    ensures var r := Replay(w, identity, Messages, now, dates);
      && r.1[0] == Some(InitialPrompt)
      && r.1[1] == Some(AskPhoneText("undefined"))
      && r.1[2] == Some(AskRelationshipText(Phone))
      && (forall i | 3 <= i < |Messages| :: r.1[i] == Some(PhoneError))
      && Redis.ConvKey(identity) in r.0.cache
      && r.0.cache[Redis.ConvKey(identity)].value == Redis.Doc(Redis.CachedConversation(1, CollectingPhone, Named))
      && r.0.db.requests == []
  {
    var E := Redis.DefaultExpiry * 1000;
    var user := Database.User(1, identity, 0);
    var c3 := Redis.CachedConversation(1, CollectingPhone, Named);
    OpeningThree(w, identity, now, dates);
    var w3 :| Settled(w3, identity, user, c3, now + 2 * Pause + E, 3, now + E)
              && Replays3(w, identity, Messages, now, dates,
                          Some(InitialPrompt), Some(AskPhoneText("undefined")), Some(AskRelationshipText(Phone)), w3);
    LaterMessagesRefused();
    ThenRefused(w, w3, identity, Messages, now, dates,
                Some(InitialPrompt), Some(AskPhoneText("undefined")), Some(AskRelationshipText(Phone)),
                user, c3, now + 2 * Pause + E, 3, now + E, LaterMessages);
  }

  /** The script from empty stores stalls at COLLECTING_PHONE with the phone
      number as the storyteller's name, and never creates a story request. */
  lemma TestSmsStalls(now: int, dates: DateLib)
    ensures var r := Replay(Empty, Phone, Messages, now, dates);
      && (forall i | 3 <= i < |Messages| :: r.1[i] == Some(PhoneError))
      && Redis.ConvKey(Phone) in r.0.cache && r.0.cache[Redis.ConvKey(Phone)].value.Doc?
      && r.0.cache[Redis.ConvKey(Phone)].value.doc.state == CollectingPhone
      && r.0.cache[Redis.ConvKey(Phone)].value.doc.data == Named
      && Named.form.storyteller.name == Some(Phone)
      && r.0.db.requests == []
  {
    ScriptStalls(Empty, Phone, now, dates);
  }
}
