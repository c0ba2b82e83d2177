/**
 * The local polling bot: the same identity scheme and the same ordered
 * button choice as the webhook, but for a reply without buttons it sets
 * `reply_markup.keyboard` to the object `{remove_keyboard: true}`, and a
 * failure is answered with an apology.
 */
module TestTelegram {
  import opened Wrappers
  import opened JsText
  import TelegramWebhook

  /** The identity a chat's messages are handled under. */
  function Identity(chatId: int): (r: string)
    ensures r == TelegramWebhook.Identity(chatId)
  {
    "telegram_" + IntToString(chatId)
  }

  /** What the bot's `reply_markup.keyboard` is set to: button rows, or the
      object `{remove_keyboard: true}` placed where the rows go. */
  datatype ReplyMarkup = Buttons(rows: TelegramWebhook.Keyboard) | RemoveKeyboardObject

  /** This copy of `getKeyboardForState`: the same four tests in the same
      order, with `{remove_keyboard: true}` in place of `null`. */
  function GetKeyboardForState(response: string): (r: ReplyMarkup)
  {
    if Contains(response, TelegramWebhook.ChooseMarker) then Buttons([["1", "2", "3"]])
    else if Contains(response, TelegramWebhook.DoneMarker) then Buttons([["done"]])
    else if Contains(response, TelegramWebhook.YesMarker) || Contains(response, TelegramWebhook.CancelMarker) then Buttons([["yes", "cancel"]])
    else if Contains(response, TelegramWebhook.NoneMarker) then Buttons([["none"]])
    else RemoveKeyboardObject
  }

  /** The two copies agree wherever the webhook offers buttons, and this one
      puts `{remove_keyboard: true}` under `keyboard` wherever the webhook
      sends none. */
  lemma SameButtonsAsWebhook(response: string)
    ensures TelegramWebhook.GetKeyboardForState(response).Some? ==>
      GetKeyboardForState(response) == Buttons(TelegramWebhook.GetKeyboardForState(response).value)
    ensures TelegramWebhook.GetKeyboardForState(response).None? <==> GetKeyboardForState(response) == RemoveKeyboardObject
  {
  }

  /** The first test wins: a reply offering a choice and also mentioning
      'done' gets the three choice buttons. */
  lemma FirstMatchWins(before: string, between: string, after: string)
    ensures GetKeyboardForState(before + TelegramWebhook.ChooseMarker + between + TelegramWebhook.DoneMarker + after)
      == Buttons([["1", "2", "3"]])
  {
    var s := before + TelegramWebhook.ChooseMarker + between + TelegramWebhook.DoneMarker + after;
    ContainsMiddle(before, TelegramWebhook.ChooseMarker, between + TelegramWebhook.DoneMarker + after);
    assert before + TelegramWebhook.ChooseMarker + (between + TelegramWebhook.DoneMarker + after) == s;
  }

  /** A message sent to the chat, with the markup it carries if any. */
  datatype Sent = Sent(text: string, markup: Option<ReplyMarkup>)

  const ErrorText := "Sorry, something went wrong. Please try again."

  /** The bot's answer to one message. An `undefined` reply (on entering
      CONFIRMING) makes the log line before the send throw, when it takes
      the reply's first characters, so nothing is sent with markup and the
      error handler sends a plain apology instead. */
  function Deliver(reply: Option<string>): (r: Sent)
    ensures reply.Some? ==> r.text == reply.value && r.markup.Some?
    ensures reply.None? <==> r.markup.None?
    ensures reply.None? ==> r.text == ErrorText
  {
    match reply
    case None => Sent(ErrorText, None)
    case Some(text) => Sent(text, Some(GetKeyboardForState(text)))
  }

  /** The polling bot answers every message, where the webhook stays
      silent on an `undefined` reply; whenever both send, they send the
      same text. */
  lemma AnswersWhereWebhookIsSilent(reply: Option<string>)
    ensures TelegramWebhook.Deliver(reply).None? <==> Deliver(reply).text == ErrorText && Deliver(reply).markup.None?
    ensures TelegramWebhook.Deliver(reply).Some? ==> TelegramWebhook.Deliver(reply).value.text == Deliver(reply).text
  {
  }
}
