/**
 * The dialogue definition: the named states, the constant transition table
 * (successor, validator, transform, prompt and error text of each state) and
 * the five lookup helpers over it.
 */
module ConversationStates {
  import opened Wrappers
  import opened JsText

  datatype State =
    | Initial
    | CollectingName
    | CollectingPhone
    | CollectingRelationship
    | CollectingPersonality
    | CollectingBackground
    | CollectingQuestions
    | CollectingMoreQuestions
    | CollectingAvoidTopics
    | CollectingAiStyle
    | CollectingSchedule
    | Confirming
    | Completed
    | Cancelled

  /** The string under which a state is stored in both tiers. */
  function StateName(s: State): string {
    match s
    case Initial => "initial"
    case CollectingName => "collecting_name"
    case CollectingPhone => "collecting_phone"
    case CollectingRelationship => "collecting_relationship"
    case CollectingPersonality => "collecting_personality"
    case CollectingBackground => "collecting_background"
    case CollectingQuestions => "collecting_questions"
    case CollectingMoreQuestions => "collecting_more_questions"
    case CollectingAvoidTopics => "collecting_avoid_topics"
    case CollectingAiStyle => "collecting_ai_style"
    case CollectingSchedule => "collecting_schedule"
    case Confirming => "confirming"
    case Completed => "completed"
    case Cancelled => "cancelled"
  }

  /** Reading a stored state name back; names outside the table give None. */
  function ParseState(name: string): (r: Option<State>)
    ensures r.Some? ==> StateName(r.value) == name
  {
    if name == "initial" then Some(Initial)
    else if name == "collecting_name" then Some(CollectingName)
    else if name == "collecting_phone" then Some(CollectingPhone)
    else if name == "collecting_relationship" then Some(CollectingRelationship)
    else if name == "collecting_personality" then Some(CollectingPersonality)
    else if name == "collecting_background" then Some(CollectingBackground)
    else if name == "collecting_questions" then Some(CollectingQuestions)
    else if name == "collecting_more_questions" then Some(CollectingMoreQuestions)
    else if name == "collecting_avoid_topics" then Some(CollectingAvoidTopics)
    else if name == "collecting_ai_style" then Some(CollectingAiStyle)
    else if name == "collecting_schedule" then Some(CollectingSchedule)
    else if name == "confirming" then Some(Confirming)
    else if name == "completed" then Some(Completed)
    else if name == "cancelled" then Some(Cancelled)
    else None
  }

  /** State names round-trip, so distinct states are stored distinctly. */
  lemma ParseStateName(s: State)
    ensures ParseState(StateName(s)) == Some(s)
  {
  }

  // ---------------------------------------------------------------------
  // The data a conversation accumulates

  datatype Storyteller = Storyteller(
    name: Option<string>,
    phone: Option<string>,
    relationship: Option<string>,
    personality: Option<string>,
    background: Option<string>)

  /** A `scheduled_time`: the literal 'now', an absolute instant (the ISO
      string of a millisecond timestamp) or the user's text kept as typed. */
  datatype Schedule = Now | At(ms: int) | Verbatim(text: string)

  datatype FormData = FormData(
    storyteller: Storyteller,
    questions: seq<string>,
    avoidTopics: seq<string>,
    aiStyle: Option<string>,
    scheduledTime: Option<Schedule>)

  /** A conversation's `data`: the form, or the empty object `{}` written
      when a conversation is cancelled. */
  datatype Data = Cleared | Form(form: FormData)

  const NoStoryteller := Storyteller(None, None, None, None, None)

  /** `{storyteller: {}, questions: [], avoid_topics: []}`. */
  const InitialForm := FormData(NoStoryteller, [], [], None, None)

  /** What a transform returns: a string, a list of strings, a schedule, or
      `undefined` (an unknown key looked up in a constant table). */
  datatype Value = Text(text: string) | List(items: seq<string>) | Time(schedule: Schedule) | Undefined

  /** Date handling the dialogue cannot see: `new Date(text)` (None for an
      invalid date) and `toLocaleTimeString` of a valid instant. */
  datatype DateLib = DateLib(parse: string -> Option<int>, localeTime: int -> string)

  // ---------------------------------------------------------------------
  // The transition table

  datatype Next = Fixed(state: State) | UntilDone | OnConfirm
  datatype Validator = NonBlank | PhoneNumber | StyleChoice | ScheduleChoice | ConfirmChoice
  datatype Transform = CanonicalPhone | FirstQuestion | AppendQuestion | AvoidList | StyleName | ScheduleTime
  datatype Prompt =
    | Static(text: string)
    | AskPhone
    | AskRelationship
    | AskPersonality
    | AskBackground
    | MoreQuestions
    | Summary
    | NoPrompt

  datatype Transition = Transition(
    next: Next,
    validate: Option<Validator>,
    transform: Option<Transform>,
    prompt: Prompt,
    error: Option<string>)

  // The fixed prompts and error texts. The longer ones are written in pieces,
  // so that what they contain can be shown piece by piece.

  const InitialPrompt := "Hi! I'm here to help you " + "record a special conversation " + "with your loved one. " +
                         "Let's start by setting up " + "the details.\n\n" +
                         "What's the name of the person " + "you'd like to have " + "a conversation with?"
  const BackgroundPrompt := "What would you like to ask about? Share 1-3 specific topics or questions."
  const QuestionsPrompt := "Any other questions? (" + "Reply 'done'" + " if you're finished)"
  const SensitivePrompt := "Great questions! " + "Are there any sensitive " + "topics to avoid? (" + "Reply 'none'" + " if not)"
  const StylePrompt := "How should the AI interviewer be? " + "Choose one:" +
                       "\n1) Warm & friendly" + "\n2) Professional journalist" + "\n3) Curious grandchild"
  const SchedulePrompt := "When should I make " + "the call?" + "\n1) Now" + "\n2) In 30 minutes" + "\n3) In 1 hour" + "\n4) Custom time"

  const NameError := "Please provide the person's name."
  const PhoneError := "Please provide " + "a valid phone number."
  const StyleError := "Please choose 1, 2, or 3"
  const ConfirmError := "Please reply 'yes' " + "to confirm or " + "'cancel'" + " to start over."
  const DefaultError := "Invalid input. Please try again."

  /** The table; COMPLETED and CANCELLED have no entry. */
  function Transitions(s: State): Option<Transition> {
    match s
    case Initial =>
      Some(Transition(Fixed(CollectingName), None, None, Static(InitialPrompt), None))
    case CollectingName =>
      Some(Transition(Fixed(CollectingPhone), Some(NonBlank), None, AskPhone, Some(NameError)))
    case CollectingPhone =>
      Some(Transition(Fixed(CollectingRelationship), Some(PhoneNumber), Some(CanonicalPhone), AskRelationship, Some(PhoneError)))
    case CollectingRelationship =>
      Some(Transition(Fixed(CollectingPersonality), Some(NonBlank), None, AskPersonality, None))
    case CollectingPersonality =>
      Some(Transition(Fixed(CollectingBackground), Some(NonBlank), None, AskBackground, None))
    case CollectingBackground =>
      Some(Transition(Fixed(CollectingQuestions), Some(NonBlank), None, Static(BackgroundPrompt), None))
    case CollectingQuestions =>
      Some(Transition(Fixed(CollectingMoreQuestions), Some(NonBlank), Some(FirstQuestion), Static(QuestionsPrompt), None))
    case CollectingMoreQuestions =>
      Some(Transition(UntilDone, Some(NonBlank), Some(AppendQuestion), MoreQuestions, None))
    case CollectingAvoidTopics =>
      Some(Transition(Fixed(CollectingAiStyle), Some(NonBlank), Some(AvoidList), Static(StylePrompt), None))
    case CollectingAiStyle =>
      Some(Transition(Fixed(CollectingSchedule), Some(StyleChoice), Some(StyleName), Static(SchedulePrompt), Some(StyleError)))
    case CollectingSchedule =>
      Some(Transition(Fixed(Confirming), Some(ScheduleChoice), Some(ScheduleTime), Summary, None))
    case Confirming =>
      Some(Transition(OnConfirm, Some(ConfirmChoice), None, NoPrompt, Some(ConfirmError)))
    case Completed => None
    case Cancelled => None
  }

  predicate HasEntry(s: State) {
    Transitions(s).Some?
  }

  // ---------------------------------------------------------------------
  // The behaviours the table refers to

  const StyleKeys := ["1", "2", "3", "warm", "professional", "curious"]
  const ScheduleKeys := ["1", "2", "3", "4", "now", "30", "60", "custom"]
  const ConfirmKeys := ["yes", "no", "cancel"]

  /** `am` or `pm` in any case, or nothing. */
  predicate OptionalMeridiem(t: string) {
    t == [] || Lower(t) == "am" || Lower(t) == "pm"
  }

  /** The time-of-day pattern `^\d{1,2}:\d{2}\s?(am|pm)?$`, case-insensitive,
      with the hour written in `h` digits. */
  predicate TimeWithHourDigits(s: string, h: nat) {
    |s| >= h + 3 && AllDigits(s[..h]) && s[h] == ':' && IsDigit(s[h + 1]) && IsDigit(s[h + 2]) &&
    var rest := s[h + 3..];
    OptionalMeridiem(rest) || (|rest| >= 1 && IsWhitespace(rest[0]) && OptionalMeridiem(rest[1..]))
  }

  predicate IsTimeOfDay(s: string) {
    TimeWithHourDigits(s, 1) || TimeWithHourDigits(s, 2)
  }

  predicate Validates(v: Validator, input: string) {
    match v
    case NonBlank => |Trim(input)| > 0
    case PhoneNumber => |Digits(input)| >= 10
    case StyleChoice => Lower(input) in StyleKeys
    case ScheduleChoice => Lower(input) in ScheduleKeys || IsTimeOfDay(input)
    case ConfirmChoice => Lower(input) in ConfirmKeys
  }

  /** `+1` and the ten digits of a national number, otherwise `+` and all
      the digits. */
  function CanonicalPhoneNumber(input: string): string {
    var cleaned := Digits(input);
    if |cleaned| == 10 then "+1" + cleaned
    else if |cleaned| == 11 && cleaned[0] == '1' then "+" + cleaned
    else "+" + cleaned
  }

  function StyleOf(input: string): Value {
    var key := Lower(input);
    if key == "1" || key == "warm" then Text("warm")
    else if key == "2" || key == "professional" then Text("professional")
    else if key == "3" || key == "curious" then Text("curious")
    else Undefined
  }

  const HalfHour := 30 * 60 * 1000
  const Hour := 60 * 60 * 1000

  /** The schedule keywords resolved against the clock `now` (milliseconds). */
  function ScheduleOf(input: string, now: int): Schedule {
    var key := Lower(input);
    if key == "1" || key == "now" then Now
    else if key == "2" || key == "30" then At(now + HalfHour)
    else if key == "3" || key == "60" then At(now + Hour)
    else Verbatim(input)
  }

  function Transformed(t: Transform, input: string, data: FormData, now: int): Value {
    match t
    case CanonicalPhone => Text(CanonicalPhoneNumber(input))
    case FirstQuestion => List([Trim(input)])
    case AppendQuestion =>
      if Lower(input) == "done" then List(data.questions) else List(data.questions + [Trim(input)])
    case AvoidList => if Lower(input) == "none" then List([]) else List([Trim(input)])
    case StyleName => StyleOf(input)
    case ScheduleTime => Time(ScheduleOf(input, now))
  }

  function Successor(n: Next, input: string): State {
    match n
    case Fixed(s) => s
    case UntilDone => if Lower(input) == "done" then CollectingAvoidTopics else CollectingMoreQuestions
    case OnConfirm => if Lower(input) == "yes" then Completed else Cancelled
  }

  /** The instant `new Date(scheduled_time)` denotes, None when invalid. */
  function DateOf(t: Option<Schedule>, dates: DateLib): Option<int> {
    if t.None? then None
    else match t.value
      case Now => None
      case At(ms) => Some(ms)
      case Verbatim(text) => dates.parse(text)
  }

  function WhenText(t: Option<Schedule>, dates: DateLib): string {
    if t == Some(Now) then "immediately"
    else var d := DateOf(t, dates);
      "at " + (if d.Some? then dates.localeTime(d.value) else "Invalid Date")
  }

  /** The confirmation summary, rendered from the data collected so far. */
  function SummaryText(data: FormData, dates: DateLib): string {
    var st := data.storyteller;
    "Perfect! Here's what I have:\n\n" +
    "\U{1F4DE} Calling: " + ShowUndefined(st.name) + " (" + ShowUndefined(st.phone) + ")\n" +
    "\U{1F464} Relationship: " + ShowUndefined(st.relationship) + "\n" +
    "\U{1F3AF} Questions: " + NatToString(|data.questions|) + " topics\n" +
    "\U{1F916} Style: " + ShowUndefined(data.aiStyle) + " interviewer\n" +
    "\U{23F0} When: " + WhenText(data.scheduledTime, dates) + "\n\n" +
    "Reply 'yes' to confirm or 'cancel' to start over."
  }

  function AskPhoneText(name: string): string {
    "Great! What's the best phone number to reach " + name + "?"
  }

  function AskRelationshipText(name: string): string {
    "What's your relationship to " + name + "? (e.g., grandmother, father, uncle)"
  }

  function AskPersonalityText(name: string): string {
    "How would you describe " + name + "'s personality? This helps the AI adapt its conversation style. (e.g., \"formal but warms up when talking about gardening\")"
  }

  function AskBackgroundText(name: string): string {
    "What's some background about " + name + " that might be helpful? (e.g., \"Polish immigrant who came to America in 1960s\")"
  }

  /** The follow-up prompt of the question loop. */
  function MoreQuestionsText(questions: seq<string>): string {
    if |questions| >= 5 then SensitivePrompt else QuestionsPrompt
  }

  /** A prompt computed from the data. */
  function Rendered(p: Prompt, data: FormData, dates: DateLib): string
    requires !p.Static? && !p.NoPrompt?
  {
    var name := ShowUndefined(data.storyteller.name);
    match p
    case AskPhone => AskPhoneText(name)
    case AskRelationship => AskRelationshipText(name)
    case AskPersonality => AskPersonalityText(name)
    case AskBackground => AskBackgroundText(name)
    case MoreQuestions => MoreQuestionsText(data.questions)
    case Summary => SummaryText(data, dates)
  }

  // ---------------------------------------------------------------------
  // The five lookup helpers

  /** `getNextState`: None for a state without an entry. */
  function GetNextState(s: State, input: string): (r: Option<State>)
    ensures r.None? <==> !HasEntry(s)
  {
    match Transitions(s)
    case None => None
    case Some(t) => Some(Successor(t.next, input))
  }

  /** `validateInput`: true when the state has no entry or no validator. */
  function ValidateInput(s: State, input: string): (r: bool)
    ensures (!HasEntry(s) || Transitions(s).value.validate.None?) ==> r
  {
    match Transitions(s)
    case None => true
    case Some(t) => t.validate.None? || Validates(t.validate.value, input)
  }

  /** `transformInput`: the raw input when the state has no entry or no
      transform. The transforms work on the form a state with an entry
      always carries. */
  function TransformInput(s: State, input: string, data: Data, now: int): (r: Value)
    requires HasEntry(s) ==> data.Form?
    ensures (!HasEntry(s) || Transitions(s).value.transform.None?) ==> r == Text(input)
  {
    match Transitions(s)
    case None => Text(input)
    case Some(t) => if t.transform.None? then Text(input) else Transformed(t.transform.value, input, data.form, now)
  }

  /** Whether a state's prompt is computed from the data. */
  predicate DynamicPrompt(s: State) {
    HasEntry(s) && !Transitions(s).value.prompt.Static? && !Transitions(s).value.prompt.NoPrompt?
  }

  /** `getPrompt`: None when the state has no entry, and when its entry has
      no prompt (CONFIRMING). `data` is None when the caller passes none. */
  function GetPrompt(s: State, data: Option<FormData>, dates: DateLib): (r: Option<string>)
    requires DynamicPrompt(s) ==> data.Some?
    ensures r.None? <==> !HasEntry(s) || s == Confirming
  {
    match Transitions(s)
    case None => None
    case Some(t) =>
      match t.prompt
      case Static(text) => Some(text)
      case NoPrompt => None
      case _ => Some(Rendered(t.prompt, data.value, dates))
  }

  /** `getError`: the entry's error text, or the generic one. */
  function GetError(s: State): (r: string)
    ensures HasEntry(s) && Transitions(s).value.error.Some? ==> r == Transitions(s).value.error.value
    ensures (!HasEntry(s) || Transitions(s).value.error.None?) ==> r == DefaultError
  {
    match Transitions(s)
    case None => DefaultError
    case Some(t) => if t.error.Some? then t.error.value else DefaultError
  }

  // ---------------------------------------------------------------------
  // Properties of the table

  /** The order in which the dialogue visits its states. */
  const Chain := [Initial, CollectingName, CollectingPhone, CollectingRelationship, CollectingPersonality,
                  CollectingBackground, CollectingQuestions, CollectingMoreQuestions, CollectingAvoidTopics,
                  CollectingAiStyle, CollectingSchedule, Confirming]

  /** Opening a conversation asks for the storyteller's name, whatever data
      the caller passes. */
  lemma InitialPromptIsStatic(data: Option<FormData>, dates: DateLib)
    ensures GetPrompt(Initial, data, dates) == Some(InitialPrompt)
  {
  }

  /** Every state up to CONFIRMING moves to the next one of the chain, the
      question loop only on 'done' (in any case, untrimmed). */
  lemma SuccessorsFollowChain(i: nat, input: string)
    requires i + 1 < |Chain|
    ensures Chain[i] != CollectingMoreQuestions ==> GetNextState(Chain[i], input) == Some(Chain[i + 1])
    ensures Chain[i] == CollectingMoreQuestions ==>
      GetNextState(Chain[i], input) == (if Lower(input) == "done" then Some(Chain[i + 1]) else Some(Chain[i]))
  {
  }

  /** Only the two end states lack an entry, and only INITIAL accepts
      anything for lack of a validator. */
  lemma EntriesAndValidators(s: State, input: string)
    ensures !HasEntry(s) <==> s == Completed || s == Cancelled
    ensures HasEntry(s) && Transitions(s).value.validate.None? <==> s == Initial
    ensures s in {Initial, Completed, Cancelled} ==> ValidateInput(s, input)
  {
  }

  /** Which states have their own error text; every other state reports the
      generic one. */
  lemma ErrorTexts(s: State)
    ensures GetError(s) == (if s == CollectingName then NameError
                            else if s == CollectingPhone then PhoneError
                            else if s == CollectingAiStyle then StyleError
                            else if s == Confirming then ConfirmError
                            else DefaultError)
    ensures GetError(s) != DefaultError <==> s in {CollectingName, CollectingPhone, CollectingAiStyle, Confirming}
  {
    assert |DefaultError| == 32;
    assert |NameError| == 33 && |PhoneError| == 36 && |StyleError| == 24 && |ConfirmError| == 56;
  }

  /** A phone number is accepted exactly when it has at least ten digits; it
      is stored as '+' and digits only, with country code 1 added to a
      ten-digit number. */
  lemma PhoneRule(input: string, form: FormData, now: int)
    ensures ValidateInput(CollectingPhone, input) <==> |Digits(input)| >= 10
    ensures TransformInput(CollectingPhone, input, Form(form), now) == Text(CanonicalPhoneNumber(input))
    ensures CanonicalPhoneNumber(input) == (if |Digits(input)| == 10 then "+1" + Digits(input) else "+" + Digits(input))
  {
  }

  /** A stored phone number is '+' followed by digits only. */
  lemma CanonicalPhoneShape(input: string)
    ensures var t := CanonicalPhoneNumber(input);
      |t| >= 1 && t[0] == '+' && AllDigits(t[1..])
  {
    var d := Digits(input);
    var t := CanonicalPhoneNumber(input);
    if |d| == 10 {
      assert t == "+" + ("1" + d);
      assert t[1..] == "1" + d;
    } else {
      assert t[1..] == d;
    }
  }

  /** The digits of '+' followed by digits are those digits. */
  lemma DigitsAfterPlus(d: string)
    requires AllDigits(d)
    ensures Digits("+" + d) == d
  {
    DigitsAppend("+", d);
    DigitsOfNone("+");
    DigitsOfDigits(d);
  }

  /** A ten-digit number, once stored with +1, is stored unchanged. */
  lemma CanonicalTen(d: string)
    requires AllDigits(d) && |d| == 10
    ensures CanonicalPhoneNumber("+1" + d) == "+1" + d
  {
    var e := "1" + d;
    assert AllDigits(e) by {
      forall i | 0 <= i < |e| ensures IsDigit(e[i]) {
        if i > 0 { assert e[i] == d[i - 1]; }
      }
    }
    assert "+1" + d == "+" + e;
    DigitsAfterPlus(e);
  }

  /** A longer number, once stored with +, is stored unchanged. */
  lemma CanonicalLong(d: string)
    requires AllDigits(d) && |d| > 10
    ensures CanonicalPhoneNumber("+" + d) == "+" + d
  {
    DigitsAfterPlus(d);
  }

  /** Canonicalising an accepted number a second time changes nothing. */
  lemma PhoneCanonicalIdempotent(input: string)
    requires |Digits(input)| >= 10
    ensures CanonicalPhoneNumber(CanonicalPhoneNumber(input)) == CanonicalPhoneNumber(input)
  {
    var d := Digits(input);
    if |d| == 10 {
      CanonicalTen(d);
    } else {
      CanonicalLong(d);
    }
  }

  /** The first question: any non-blank answer, stored trimmed as a
      one-item list. */
  lemma FirstQuestionRule(input: string, form: FormData, now: int)
    ensures ValidateInput(CollectingQuestions, input) <==> Trim(input) != []
    ensures GetNextState(CollectingQuestions, input) == Some(CollectingMoreQuestions)
    ensures TransformInput(CollectingQuestions, input, Form(form), now) == List([Trim(input)])
  {
  }

  /** Topics to avoid: 'none' in any letter case gives the empty list, any
      other non-blank answer a one-item list of the trimmed text. */
  lemma AvoidTopicsRule(input: string, form: FormData, now: int)
    ensures ValidateInput(CollectingAvoidTopics, input) <==> Trim(input) != []
    ensures GetNextState(CollectingAvoidTopics, input) == Some(CollectingAiStyle)
    ensures TransformInput(CollectingAvoidTopics, input, Form(form), now) ==
      (if Lower(input) == "none" then List([]) else List([Trim(input)]))
  {
  }

  /** The question loop: 'done' moves on and keeps the list; anything else
      stays and appends the trimmed text. */
  lemma QuestionLoop(input: string, form: FormData, now: int)
    ensures Lower(input) == "done" ==>
      GetNextState(CollectingMoreQuestions, input) == Some(CollectingAvoidTopics) &&
      TransformInput(CollectingMoreQuestions, input, Form(form), now) == List(form.questions)
    ensures Lower(input) != "done" ==>
      GetNextState(CollectingMoreQuestions, input) == Some(CollectingMoreQuestions) &&
      TransformInput(CollectingMoreQuestions, input, Form(form), now) == List(form.questions + [Trim(input)]) &&
      |TransformInput(CollectingMoreQuestions, input, Form(form), now).items| == |form.questions| + 1
  {
  }

  /** The loop's prompt turns to sensitive topics from the fifth question
      on, while the state stays the same. */
  lemma QuestionLoopPrompt(form: FormData, dates: DateLib)
    ensures GetPrompt(CollectingMoreQuestions, Some(form), dates) == Some(SensitivePrompt) <==> |form.questions| >= 5
    ensures GetPrompt(CollectingMoreQuestions, Some(form), dates) == Some(QuestionsPrompt) <==> |form.questions| < 5
  {
    PromptsDiffer();
    assert GetPrompt(CollectingMoreQuestions, Some(form), dates) == Some(MoreQuestionsText(form.questions));
  }

  lemma PromptsDiffer()
    ensures SensitivePrompt != QuestionsPrompt
  {
    assert |SensitivePrompt| == 79 && |QuestionsPrompt| == 54;
  }

  /** AI style: six accepted answers in any letter case, each mapped to one
      of the three style names. */
  lemma StyleRule(input: string, form: FormData, now: int)
    ensures ValidateInput(CollectingAiStyle, input) <==> Lower(input) in StyleKeys
    ensures var key := Lower(input);
      var r := TransformInput(CollectingAiStyle, input, Form(form), now);
      && (key == "1" || key == "warm" ==> r == Text("warm"))
      && (key == "2" || key == "professional" ==> r == Text("professional"))
      && (key == "3" || key == "curious" ==> r == Text("curious"))
      && (key in StyleKeys <==> r in {Text("warm"), Text("professional"), Text("curious")})
  {
  }

  /** Schedule: eight keywords or a clock time are accepted; 1 and 'now'
      mean now, the half-hour and hour choices are resolved against the
      clock, and everything else accepted is kept as typed. */
  lemma ScheduleRule(input: string, form: FormData, now: int)
    ensures ValidateInput(CollectingSchedule, input) <==> Lower(input) in ScheduleKeys || IsTimeOfDay(input)
    ensures var key := Lower(input);
      var r := TransformInput(CollectingSchedule, input, Form(form), now);
      && (key == "1" || key == "now" ==> r == Time(Now))
      && (key == "2" || key == "30" ==> r == Time(At(now + 30 * 60 * 1000)))
      && (key == "3" || key == "60" ==> r == Time(At(now + 60 * 60 * 1000)))
      && (key !in {"1", "now", "2", "30", "3", "60"} ==> r == Time(Verbatim(input)))
  {
  }

  /** Confirmation: yes, no or cancel (any case) are accepted, and only yes
      completes. CONFIRMING has no prompt of its own. */
  lemma ConfirmRule(input: string, data: Option<FormData>, dates: DateLib)
    ensures ValidateInput(Confirming, input) <==> Lower(input) in ConfirmKeys
    ensures GetNextState(Confirming, input) == Some(if Lower(input) == "yes" then Completed else Cancelled)
    ensures GetPrompt(Confirming, data, dates).None?
    ensures GetNextState(Completed, input).None? && GetNextState(Cancelled, input).None?
    ensures GetPrompt(Completed, data, dates).None? && GetPrompt(Cancelled, data, dates).None?
  {
  }
}
