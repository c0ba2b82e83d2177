/**
 * The Telegram front end: messages from a chat are handed to the SMS
 * handler under the identity 'telegram_<chat id>', and the reply is sent
 * back with a row of quick-reply buttons chosen from the reply's text.
 */
module TelegramWebhook {
  import opened Wrappers
  import opened JsText
  import opened ConversationStates
  import SmsHandler

  // ---------------------------------------------------------------------
  // The identity of a chat

  const Prefix := "telegram_"

  /** The identity a chat's messages are handled under. */
  function Identity(chatId: int): (r: string)
    ensures |r| > |Prefix| && r[..|Prefix|] == Prefix
    ensures r[|Prefix|..] == IntToString(chatId)
  {
    Prefix + IntToString(chatId)
  }

  /** Two chats never share a conversation. */
  lemma IdentityInjective(a: int, b: int)
    requires Identity(a) == Identity(b)
    ensures a == b
  {
    assert Identity(a)[|Prefix|..] == Identity(b)[|Prefix|..];
    IntToStringInjective(a, b);
  }

  /** A chat identity never begins with '+', so it never equals the phone
      number an SMS user is known by; in particular it differs from every
      number the dialogue stores for a storyteller. */
  lemma IdentityIsNoPhone(chatId: int, input: string)
    ensures Identity(chatId)[0] == 't'
    ensures Identity(chatId) != CanonicalPhoneNumber(input)
  {
    assert Identity(chatId)[0] == Prefix[0];
    CanonicalPhoneShape(input);
  }

  // ---------------------------------------------------------------------
  // Quick-reply buttons

  type Keyboard = seq<seq<string>>

  const ChoiceButtons: Keyboard := [["1", "2", "3"]]
  const DoneButtons: Keyboard := [["done"]]
  const ConfirmButtons: Keyboard := [["yes", "cancel"]]
  const NoneButtons: Keyboard := [["none"]]

  const ChooseMarker := "Choose one:"
  const DoneMarker := "Reply 'done'"
  const YesMarker := "Reply 'yes'"
  const CancelMarker := "'cancel'"
  const NoneMarker := "Reply 'none'"

  /** Whether the reply mentions any of the five texts buttons are offered
      for. */
  predicate HasMarker(response: string) {
    Contains(response, ChooseMarker) || Contains(response, DoneMarker) || Contains(response, YesMarker)
    || Contains(response, CancelMarker) || Contains(response, NoneMarker)
  }

  /** `getKeyboardForState`: the buttons for the first marker the reply
      mentions, checked in a fixed order; no keyboard when none occurs. */
  function GetKeyboardForState(response: string): (r: Option<Keyboard>)
    ensures r.None? <==> !HasMarker(response)
    ensures Contains(response, ChooseMarker) ==> r == Some(ChoiceButtons)
    ensures r == Some(DoneButtons) <==> !Contains(response, ChooseMarker) && Contains(response, DoneMarker)
    ensures r == Some(ConfirmButtons) <==>
      !Contains(response, ChooseMarker) && !Contains(response, DoneMarker)
      && (Contains(response, YesMarker) || Contains(response, CancelMarker))
    ensures r == Some(NoneButtons) <==>
      !Contains(response, ChooseMarker) && !Contains(response, DoneMarker) && !Contains(response, YesMarker)
      && !Contains(response, CancelMarker) && Contains(response, NoneMarker)
  {
    if Contains(response, ChooseMarker) then Some(ChoiceButtons)
    else if Contains(response, DoneMarker) then Some(DoneButtons)
    else if Contains(response, YesMarker) || Contains(response, CancelMarker) then Some(ConfirmButtons)
    else if Contains(response, NoneMarker) then Some(NoneButtons)
    else None
  }

  /** A message sent to the chat: Markdown text and, when there is one, a
      resized keyboard. */
  datatype Sent = Sent(text: string, keyboard: Option<Keyboard>)

  /** The webhook's reply to one text message. When the handler's reply is
      `undefined` (on entering CONFIRMING), choosing the keyboard throws,
      the error is caught and nothing is sent. */
  function Deliver(reply: Option<string>): (r: Option<Sent>)
    ensures r.Some? <==> reply.Some?
    ensures r.Some? ==> r.value.text == reply.value
    ensures r.Some? ==> (r.value.keyboard.Some? <==> HasMarker(reply.value))
  {
    match reply
    case None => None
    case Some(text) => Some(Sent(text, GetKeyboardForState(text)))
  }

  // ---------------------------------------------------------------------
  // Ruling markers out

  /** Where a character occurs once only, a text that holds it at position
      `m` can occur only with that position on the character. */
  lemma Anchored(a: string, c: char, b: string, t: string, m: nat)
    requires m < |t| && t[m] == c && c !in a && c !in b
    ensures Contains(a + [c] + b, t) <==> OccursAt(a + [c] + b, t, |a| - m)
  {
    var s := a + [c] + b;
    if Contains(s, t) {
      var i :| 0 <= i <= |s| - |t| && OccursAt(s, t, i);
      assert s[i + m] == t[m] == c;
      assert forall k :: 0 <= k < |a| ==> s[k] == a[k] && a[k] in a;
      assert forall k :: |a| < k < |s| ==> s[k] == b[k - |a| - 1] && b[k - |a| - 1] in b;
    }
  }

  lemma NoColon(s: string)
    requires ':' !in s
    ensures !Contains(s, ChooseMarker)
  {
    MissingChar(s, ChooseMarker, ':');
  }

  /** The three "Reply '…'" markers all begin with a capital R. */
  lemma NoCapitalR(s: string)
    requires 'R' !in s
    ensures !Contains(s, DoneMarker) && !Contains(s, YesMarker) && !Contains(s, NoneMarker)
  {
    MissingChar(s, DoneMarker, 'R');
    MissingChar(s, YesMarker, 'R');
    MissingChar(s, NoneMarker, 'R');
  }

  lemma NoQuote(s: string)
    requires '\'' !in s
    ensures !Contains(s, CancelMarker)
  {
    MissingChar(s, CancelMarker, '\'');
  }

  // ---------------------------------------------------------------------
  // The buttons each reply of the dialogue comes with

  /** Entering COLLECTING_AVOID_TOPICS shows the AI-style menu with buttons
      1, 2 and 3, yet that state records whatever is answered as the topic
      to avoid: pressing a button stores it as the one topic to avoid. */
  lemma StyleMenuButtons(form: FormData, dates: DateLib, now: int, button: string)
    requires button in ChoiceButtons[0]
    ensures GetPrompt(CollectingAvoidTopics, Some(form), dates) == Some(StylePrompt)
    ensures GetKeyboardForState(StylePrompt) == Some(ChoiceButtons)
    ensures ValidateInput(CollectingAvoidTopics, button)
    ensures GetNextState(CollectingAvoidTopics, button) == Some(CollectingAiStyle)
    ensures TransformInput(CollectingAvoidTopics, button, Form(form), now) == List([button])
  {
    StylePromptKeyboard();
    ChoiceStoredAsTopic(button, form, now);
  }

  lemma ChoiceStoredAsTopic(button: string, form: FormData, now: int)
    requires button in ChoiceButtons[0]
    ensures ValidateInput(CollectingAvoidTopics, button)
    ensures GetNextState(CollectingAvoidTopics, button) == Some(CollectingAiStyle)
    ensures TransformInput(CollectingAvoidTopics, button, Form(form), now) == List([button])
  {
    AvoidTopicsRule(button, form, now);
    assert |button| == 1;
    TrimUnchanged(button);
  }

  lemma StylePromptKeyboard()
    ensures GetKeyboardForState(StylePrompt) == Some(ChoiceButtons)
  {
    var head := "How should the AI interviewer be? ";
    var tail := "\n1) Warm & friendly" + "\n2) Professional journalist" + "\n3) Curious grandchild";
    assert StylePrompt == head + ChooseMarker + tail;
    ContainsMiddle(head, ChooseMarker, tail);
  }

  /** Entering COLLECTING_QUESTIONS offers a 'done' button, but the first
      answer is always taken as a question: pressing it (or typing 'done' in
      any letter case) stores that word as the first question and moves on
      to the question loop. */
  lemma FirstQuestionButtons(form: FormData, dates: DateLib, now: int, answer: string)
    requires Lower(answer) == "done"
    ensures GetPrompt(CollectingQuestions, Some(form), dates) == Some(QuestionsPrompt)
    ensures GetKeyboardForState(QuestionsPrompt) == Some(DoneButtons)
    ensures ValidateInput(CollectingQuestions, answer)
    ensures GetNextState(CollectingQuestions, answer) == Some(CollectingMoreQuestions)
    ensures TransformInput(CollectingQuestions, answer, Form(form), now) == List([answer])
  {
    QuestionsPromptText();
    FirstQuestionRule(answer, form, now);
    assert LowerChar(answer[0]) == 'd' && LowerChar(answer[3]) == 'e';
    TrimUnchanged(answer);
  }

  lemma QuestionsPromptText()
    ensures !Contains(QuestionsPrompt, ChooseMarker) && Contains(QuestionsPrompt, DoneMarker)
  {
    QuestionsLacksColon();
    NoColon(QuestionsPrompt);
    ContainsMiddle("Any other questions? (", DoneMarker, " if you're finished)");
  }

  lemma QuestionsLacksColon() ensures ':' !in QuestionsPrompt {}

  /** From the fifth question on, the loop offers a 'none' button meant for
      sensitive topics, but the loop still collects questions: pressing it
      appends the question "none" and the loop goes on. */
  lemma SensitiveTopicsButtons(form: FormData, dates: DateLib, now: int, button: string)
    requires |form.questions| >= 5 && button in NoneButtons[0]
    ensures GetPrompt(CollectingMoreQuestions, Some(form), dates) == Some(SensitivePrompt)
    ensures GetKeyboardForState(SensitivePrompt) == Some(NoneButtons)
    ensures GetNextState(CollectingMoreQuestions, button) == Some(CollectingMoreQuestions)
    ensures TransformInput(CollectingMoreQuestions, button, Form(form), now) == List(form.questions + ["none"])
  {
    QuestionLoopPrompt(form, dates);
    SensitivePromptKeyboard();
    assert Lower(button)[0] == 'n';
    TrimUnchanged(button);
    QuestionLoop(button, form, now);
  }

  lemma SensitivePromptKeyboard()
    ensures GetKeyboardForState(SensitivePrompt) == Some(NoneButtons)
  {
    SensitivePromptLacksColon();
    NoColon(SensitivePrompt);
    SensitivePromptNoReply();
    SensitivePromptNoCancel();
    SensitivePromptNone();
  }

  const SensitiveHead := "Great questions! " + "Are there any sensitive " + "topics to avoid? ("

  /** The sensitive-topics prompt holds its only capital R in "Reply
      'none'", where neither "Reply 'done'" nor "Reply 'yes'" can start. */
  lemma SensitivePromptNoReply()
    ensures !Contains(SensitivePrompt, DoneMarker) && !Contains(SensitivePrompt, YesMarker)
  {
    SensitiveHeadLacksR();
    var b := "eply 'none'" + " if not)";
    assert SensitivePrompt == SensitiveHead + ['R'] + b;
    Anchored(SensitiveHead, 'R', b, DoneMarker, 0);
    Anchored(SensitiveHead, 'R', b, YesMarker, 0);
    assert SensitivePrompt[|SensitiveHead| + 7] == 'n';
  }

  /** Its only letter l is in "Reply", where 'cancel' cannot end. */
  lemma SensitivePromptNoCancel()
    ensures !Contains(SensitivePrompt, CancelMarker)
  {
    SensitiveHeadLacksL();
    var a := SensitiveHead + "Rep";
    var b := "y 'none'" + " if not)";
    assert SensitivePrompt == a + ['l'] + b;
    Anchored(a, 'l', b, CancelMarker, 6);
    assert SensitivePrompt[|a| - 6] == '?';
  }

  lemma SensitiveHeadLacksR()
    ensures 'R' !in SensitiveHead + "Rep"[1..]
  {
    assert "Rep"[1..] == "ep";
  }

  lemma SensitiveHeadLacksL()
    ensures 'l' !in SensitiveHead + "Rep"
  {
  }

  lemma SensitivePromptLacksColon()
    ensures ':' !in SensitivePrompt
  {
  }

  lemma SensitivePromptNone()
    ensures Contains(SensitivePrompt, NoneMarker)
  {
    assert SensitivePrompt == SensitiveHead + NoneMarker + " if not)";
    ContainsMiddle(SensitiveHead, NoneMarker, " if not)");
  }

  /** Entering COLLECTING_AI_STYLE shows the schedule menu, without
      buttons. */
  lemma ScheduleMenuButtons(form: FormData, dates: DateLib)
    ensures GetPrompt(CollectingAiStyle, Some(form), dates) == Some(SchedulePrompt)
    ensures GetKeyboardForState(SchedulePrompt) == None
  {
    ScheduleLacksColon();
    ScheduleLacksR();
    ScheduleLacksQuote();
    NoColon(SchedulePrompt);
    NoCapitalR(SchedulePrompt);
    NoQuote(SchedulePrompt);
  }

  lemma ScheduleLacksColon() ensures ':' !in SchedulePrompt {}
  lemma ScheduleLacksR() ensures 'R' !in SchedulePrompt {}
  lemma ScheduleLacksQuote() ensures '\'' !in SchedulePrompt {}

  /** A rejected phone number is answered without buttons. */
  lemma PhoneErrorButtons()
    ensures GetError(CollectingPhone) == PhoneError
    ensures GetKeyboardForState(PhoneError) == None
  {
    ErrorTexts(CollectingPhone);
    PhoneErrorLacksColon();
    PhoneErrorLacksR();
    PhoneErrorLacksQuote();
    NoColon(PhoneError);
    NoCapitalR(PhoneError);
    NoQuote(PhoneError);
  }

  lemma PhoneErrorLacksColon() ensures ':' !in PhoneError {}
  lemma PhoneErrorLacksR() ensures 'R' !in PhoneError {}
  lemma PhoneErrorLacksQuote() ensures '\'' !in PhoneError {}

  /** A rejected confirmation comes with the yes/cancel buttons. */
  lemma ConfirmErrorButtons()
    ensures GetError(Confirming) == ConfirmError
    ensures GetKeyboardForState(ConfirmError) == Some(ConfirmButtons)
  {
    ErrorTexts(Confirming);
    ConfirmErrorLacksColon();
    ConfirmErrorLacksR();
    NoColon(ConfirmError);
    NoCapitalR(ConfirmError);
    var head := "Please reply 'yes' " + "to confirm or ";
    var tail := " to start over.";
    assert ConfirmError == head + CancelMarker + tail;
    ContainsMiddle(head, CancelMarker, tail);
  }

  lemma ConfirmErrorLacksColon() ensures ':' !in ConfirmError {}
  lemma ConfirmErrorLacksR() ensures 'R' !in ConfirmError {}

  /** The help text mentions 'cancel', so it too comes with the yes/cancel
      buttons although there is nothing to confirm. */
  lemma HelpButtons()
    ensures GetKeyboardForState(SmsHandler.HelpText) == Some(ConfirmButtons)
  {
    HelpLacksColon();
    HelpLacksR();
    NoColon(SmsHandler.HelpText);
    NoCapitalR(SmsHandler.HelpText);
    var tail := " to stop current setup.";
    assert SmsHandler.HelpCancel == "Text " + CancelMarker + tail;
    ContainsMiddle("Text ", CancelMarker, tail);
    ContainsAfter(SmsHandler.HelpIntro + SmsHandler.HelpStart + SmsHandler.HelpStatus, SmsHandler.HelpCancel, CancelMarker);
  }

  lemma HelpLacksColon()
    ensures ':' !in SmsHandler.HelpText
  {
    IntroLacksColon();
    StartLacksColon();
    StatusLacksColon();
    CancelLacksColon();
  }

  lemma HelpLacksR()
    ensures 'R' !in SmsHandler.HelpText
  {
    IntroLacksR();
    StartLacksR();
    StatusLacksR();
    CancelLacksR();
  }

  lemma IntroLacksColon() ensures ':' !in SmsHandler.HelpIntro {}
  lemma StartLacksColon() ensures ':' !in SmsHandler.HelpStart {}
  lemma StatusLacksColon() ensures ':' !in SmsHandler.HelpStatus {}
  lemma CancelLacksColon() ensures ':' !in SmsHandler.HelpCancel {}
  lemma IntroLacksR() ensures 'R' !in SmsHandler.HelpIntro {}
  lemma StartLacksR() ensures 'R' !in SmsHandler.HelpStart {}
  lemma StatusLacksR() ensures 'R' !in SmsHandler.HelpStatus {}
  lemma CancelLacksR() ensures 'R' !in SmsHandler.HelpCancel {}
}
