/**
 * The message handler: one inbound message from an identity (a phone number
 * or a `telegram_` chat identity) is logged, rate limited, matched to its
 * user and conversation, and answered. The specification functions describe
 * one message over the two stores; the `Handler` class performs it step by
 * step over the mutable stores.
 *
 * Store calls that throw are chosen by `Ctx.failing`: the set of positions,
 * counted from 0 in the order the handler issues its store calls, whose call
 * throws for this message. The rate check's INCR, EXPIRE and TTL each have
 * their own position, and a throw does not undo the commands before it;
 * every other named store operation happens entirely or not at all.
 */
module SmsHandler {
  import opened Wrappers
  import opened JsText
  import opened ConversationStates
  import Redis
  import Database
  import VapiClient

  // ---------------------------------------------------------------------
  // Fixed replies

  const TooManyText := "You've sent too many messages. Please try again later."
  const ApologyText := "Sorry, something went wrong. Please try again or text 'start' to begin a new conversation."
  const HelpText := HelpIntro + HelpStart + HelpStatus + HelpCancel
  const HelpIntro := "Welcome to OldVoice! " + "I help you record " + "conversations with " + "loved ones.\n\n"
  const HelpStart := "Text 'start' " + "to begin setting up a call.\n"
  const HelpStatus := "Text 'status' " + "to check your recordings.\n"
  const HelpCancel := "Text 'cancel' to stop current setup."
  const InvitationText := "Hi! I'm OldVoice. I help you record conversations with your loved ones. Text 'start' to begin!"
  const CancelledText := "Conversation setup cancelled. Text 'start' to begin again."
  const RestartText := "Something went wrong. Please text 'start' to begin again."
  const SetupCancelledText := "Setup cancelled. Text 'start' to try again."
  const CompletionFailedText := "Sorry, something went wrong setting up the call. Please try again later."

  function StatusText(totalRecordings: int): string {
    "You have " + IntToString(totalRecordings) + " recorded conversations. Text 'start' to record a new one!"
  }

  function CallingNowText(name: string): string {
    "Great! I'm calling " + name + " right now. You'll receive the recording when it's ready. " +
    "This usually takes 10-30 minutes."
  }

  function CallLaterText(name: string): string {
    "Perfect! I'll call " + name + " at the scheduled time. You'll receive the recording when it's ready."
  }

  function FailureNotice(storytellerName: Option<string>): string {
    "Sorry, I couldn't reach " + ShowNull(storytellerName) + ". Please try again later."
  }

  /** `message.toLowerCase().trim()`. */
  function Keyword(message: string): string {
    Trim(Lower(message))
  }

  // ---------------------------------------------------------------------
  // Folding an answer into the data

  datatype Field =
    | NameField | PhoneField | RelationshipField | PersonalityField | BackgroundField
    | QuestionsField | AvoidTopicsField | AiStyleField | ScheduleField

  /** The field an answer accepted in a state is stored under. */
  function FieldOf(s: State): Option<Field> {
    match s
    case CollectingName => Some(NameField)
    case CollectingPhone => Some(PhoneField)
    case CollectingRelationship => Some(RelationshipField)
    case CollectingPersonality => Some(PersonalityField)
    case CollectingBackground => Some(BackgroundField)
    case CollectingQuestions => Some(QuestionsField)
    case CollectingMoreQuestions => Some(QuestionsField)
    case CollectingAvoidTopics => Some(AvoidTopicsField)
    case CollectingAiStyle => Some(AiStyleField)
    case CollectingSchedule => Some(ScheduleField)
    case _ => None
  }

  function OptText(o: Option<string>): Value {
    if o.Some? then Text(o.value) else Undefined
  }

  /** A field of the form read back as a value. */
  function Project(f: FormData, field: Field): Value {
    match field
    case NameField => OptText(f.storyteller.name)
    case PhoneField => OptText(f.storyteller.phone)
    case RelationshipField => OptText(f.storyteller.relationship)
    case PersonalityField => OptText(f.storyteller.personality)
    case BackgroundField => OptText(f.storyteller.background)
    case QuestionsField => List(f.questions)
    case AvoidTopicsField => List(f.avoidTopics)
    case AiStyleField => OptText(f.aiStyle)
    case ScheduleField => if f.scheduledTime.Some? then Time(f.scheduledTime.value) else Undefined
  }

  /** Whether a value has the shape the state's field holds. */
  predicate Fits(s: State, v: Value) {
    match FieldOf(s)
    case None => true
    case Some(field) =>
      match field
      case QuestionsField => v.List?
      case AvoidTopicsField => v.List?
      case AiStyleField => v.Text? || v.Undefined?
      case ScheduleField => v.Time?
      case _ => v.Text?
  }

  /** Whatever a state's transform makes of an input fits its field. */
  lemma TransformFits(s: State, input: string, data: Data, now: int)
    requires HasEntry(s) ==> data.Form?
    ensures Fits(s, TransformInput(s, input, data, now))
  {
  }

  /** `updateConversationData`: an answer accepted in `s` replaces exactly
      the field of `s`; states without a field leave the data alone. */
  function StoreAnswer(data: Data, s: State, v: Value): (r: Data)
    requires FieldOf(s).Some? ==> data.Form? && Fits(s, v)
    ensures FieldOf(s).None? ==> r == data
    ensures FieldOf(s).Some? ==> r.Form? && Project(r.form, FieldOf(s).value) == v
    ensures FieldOf(s).Some? ==> forall field :: field != FieldOf(s).value ==> Project(r.form, field) == Project(data.form, field)
  {
    if FieldOf(s).None? then data
    else
      var f := data.form;
      var st := f.storyteller;
      match s
      case CollectingName => Form(f.(storyteller := st.(name := Some(v.text))))
      case CollectingPhone => Form(f.(storyteller := st.(phone := Some(v.text))))
      case CollectingRelationship => Form(f.(storyteller := st.(relationship := Some(v.text))))
      case CollectingPersonality => Form(f.(storyteller := st.(personality := Some(v.text))))
      case CollectingBackground => Form(f.(storyteller := st.(background := Some(v.text))))
      case CollectingQuestions => Form(f.(questions := v.items))
      case CollectingMoreQuestions => Form(f.(questions := v.items))
      case CollectingAvoidTopics => Form(f.(avoidTopics := v.items))
      case CollectingAiStyle => Form(f.(aiStyle := if v.Text? then Some(v.text) else None))
      case CollectingSchedule => Form(f.(scheduledTime := Some(v.schedule)))
  }

  // ---------------------------------------------------------------------
  // The world one message acts on

  datatype World = World(cache: Redis.Store, db: Database.Tables)

  /** The clock, the date library and the failing store calls of one
      message. */
  datatype Ctx = Ctx(now: int, dates: DateLib, failing: set<nat>)

  /** A reply is None where the handler returns `undefined`. `dispatch` is
      the story request handed to `processStoryRequest` a second later. */
  datatype Outcome = Outcome(world: World, reply: Option<string>, dispatch: Option<Database.StoryRequest>)

  /** A sequence of store calls: the world it leaves, and whether it threw. */
  datatype Run = Run(world: World, threw: bool)

  /** A conversation in a state with a table entry carries a form. */
  predicate DocOk(state: State, data: Data) {
    HasEntry(state) ==> data.Form?
  }

  predicate IsConvKey(key: string) {
    |key| >= 5 && key[..5] == "conv:"
  }

  /** What every reachable world satisfies: documents are only cached under
      `conv:` keys, stored conversations carry a form while they are in the
      dialogue, and each identity has at most one user. */
  predicate WellFormed(w: World) {
    && (forall key | key in w.cache && w.cache[key].value.Doc? ::
          IsConvKey(key) && DocOk(w.cache[key].value.doc.state, w.cache[key].value.doc.data))
    && (forall row | row in w.db.conversations :: DocOk(row.state, row.data))
    && Database.SerialIds(w.db.conversations)
    && Database.UniquePhones(w.db.users)
  }

  function Apology(w: World): Outcome {
    Outcome(w, Some(ApologyText), None)
  }

  // ---------------------------------------------------------------------
  // One message

  /** `cancelConversation`: drop the cached copy, then mark the durable
      record CANCELLED with `{}` data (refreshing its expiry). */
  function CancelSpec(w: World, identity: string, id: nat, c: Ctx, k: nat): Run {
    if k in c.failing then Run(w, true)
    else
      var w1 := w.(cache := Redis.DeleteConversationState(w.cache, identity));
      if id == 0 then Run(w1, false)
      else if k + 1 in c.failing then Run(w1, true)
      else match Database.UpdateConversation(w1.db.conversations, id, Cancelled, Cleared, c.now)
        case None => Run(w1, true)
        case Some(rows) => Run(w1.(db := w1.db.(conversations := rows)), false)
  }

  /** `startNewConversation`: no conversation was found. */
  function StartSpec(w: World, user: Database.User, identity: string, message: string, c: Ctx, k: nat): Outcome {
    var key := Keyword(message);
    if key == "help" then Outcome(w, Some(HelpText), None)
    else if key == "status" then Outcome(w, Some(StatusText(user.totalRecordings)), None)
    else if key == "start" || key == "hello" || key == "hi" then
      if k in c.failing then Apology(w)
      else
        var (rows, row) := Database.CreateConversation(w.db.conversations, user.id, Initial, Form(InitialForm), c.now);
        var w1 := w.(db := w.db.(conversations := rows));
        if k + 1 in c.failing then Apology(w1)
        else
          var doc := Redis.CachedConversation(row.id, row.state, row.data);
          Outcome(w1.(cache := Redis.SetConversationState(w1.cache, identity, doc, c.now)),
                  GetPrompt(Initial, None, c.dates), None)
    else Outcome(w, Some(InvitationText), None)
  }

  /** `completeConversation`: record the story request, drop the cached
      copy, and answer by when the call is due. The durable conversation is
      left as it is. */
  function CompleteSpec(w: World, user: Database.User, identity: string, form: FormData, c: Ctx, k: nat): Outcome {
    if k in c.failing then Outcome(w, Some(CompletionFailedText), None)
    else match Database.CreateStoryRequest(w.db.requests, user.id, form, c.now, c.dates)
      case None => Outcome(w, Some(CompletionFailedText), None)
      case Some((requests, req)) =>
        var w1 := w.(db := w.db.(requests := requests));
        if k + 1 in c.failing then Outcome(w1, Some(CompletionFailedText), None)
        else
          var w2 := w1.(cache := Redis.DeleteConversationState(w1.cache, identity));
          var name := ShowUndefined(form.storyteller.name);
          if form.scheduledTime == Some(Now) then Outcome(w2, Some(CallingNowText(name)), Some(req))
          else Outcome(w2, Some(CallLaterText(name)), None)
  }

  /** The conversation's data once an accepted message is folded in. */
  function Answered(conv: Redis.CachedConversation, message: string, now: int): (r: Data)
    requires DocOk(conv.state, conv.data)
    ensures DocOk(conv.state, r)
  {
    var v := TransformInput(conv.state, message, conv.data, now);
    TransformFits(conv.state, message, conv.data, now);
    StoreAnswer(conv.data, conv.state, v)
  }

  /** Cancelling, answered with `text` unless the cancelling threw. */
  function CancelOutcome(w: World, identity: string, id: nat, c: Ctx, k: nat, text: string): Outcome {
    var r := CancelSpec(w, identity, id, c, k);
    Outcome(r.world, Some(if r.threw then ApologyText else text), None)
  }

  /** Moving on to `conv.state`: cache the conversation, write it to the
      durable record, and ask the next question. */
  function AdvanceSpec(w: World, identity: string, conv: Redis.CachedConversation, c: Ctx, k: nat): Outcome
    requires conv.data.Form?
  {
    if k in c.failing then Apology(w)
    else
      var w1 := w.(cache := Redis.SetConversationState(w.cache, identity, conv, c.now));
      if k + 1 in c.failing then Apology(w1)
      else match Database.UpdateConversation(w1.db.conversations, conv.id, conv.state, conv.data, c.now)
        case None => Apology(w1)
        case Some(rows) => Outcome(w1.(db := w1.db.(conversations := rows)), GetPrompt(conv.state, Some(conv.data.form), c.dates), None)
  }

  /** An accepted message: fold the answer in and act on the next state. */
  function AcceptSpec(w: World, user: Database.User, identity: string, conv: Redis.CachedConversation, message: string, c: Ctx, k: nat): Outcome
    requires DocOk(conv.state, conv.data)
  {
    var data := Answered(conv, message, c.now);
    match GetNextState(conv.state, message)
    case None => CancelOutcome(w, identity, conv.id, c, k, RestartText)
    case Some(Completed) => CompleteSpec(w, user, identity, data.form, c, k)
    case Some(Cancelled) => CancelOutcome(w, identity, conv.id, c, k, SetupCancelledText)
    case Some(next) => AdvanceSpec(w, identity, Redis.CachedConversation(conv.id, next, data), c, k)
  }

  /** `continueConversation`: the message continues `conv`. */
  function ContinueSpec(w: World, user: Database.User, identity: string, conv: Redis.CachedConversation, message: string, c: Ctx, k: nat): Outcome
    requires DocOk(conv.state, conv.data)
  {
    var key := Keyword(message);
    if key == "cancel" || key == "stop" then CancelOutcome(w, identity, conv.id, c, k, CancelledText)
    else if !ValidateInput(conv.state, message) then Outcome(w, Some(GetError(conv.state)), None)
    else AcceptSpec(w, user, identity, conv, message, c, k)
  }

  /** The world after the message is logged (the log is lost, not thrown,
      when its insert fails). */
  function Logged(w: World, identity: string, message: string, c: Ctx): World {
    if 0 in c.failing then w
    else w.(db := w.db.(logs := w.db.logs + [Database.SmsLog(identity, "inbound", message)]))
  }

  lemma RateKeyIsNot(identity: string)
    ensures !IsConvKey(Redis.RateKey(identity))
  {
    assert Redis.RateKey(identity)[0] == 'r';
  }

  /** Counting a message only touches the counter, so the world stays well
      formed, whichever of the rate check's commands throw. */
  lemma RateCheckKeeps(w: World, identity: string, now: int, f: Redis.RateFaults)
    requires WellFormed(w)
    ensures WellFormed(w.(cache := Redis.RateCheckRun(w.cache, identity, now, Redis.MaxRequests, Redis.RateWindow, f).0))
  {
    RateKeyIsNot(identity);
    Redis.RateCheckRunFrame(w.cache, identity, now, Redis.MaxRequests, Redis.RateWindow, f);
  }

  /** The rate check's three commands are issued at positions 1 (INCR),
      2 (EXPIRE, when the count became 1) and 3 (TTL). */
  function RateFaultsOf(c: Ctx): Redis.RateFaults {
    Redis.RateFaults(1 in c.failing, 2 in c.failing, 3 in c.failing)
  }

  lemma UserKeeps(w: World, identity: string)
    requires WellFormed(w)
    ensures WellFormed(w.(db := w.db.(users := Database.CreateOrGetUser(w.db.users, identity).0)))
  {
  }

  /** The message of a known user, once it passed the rate limit: continue
      the conversation found in the cache, else the one found in the
      durable store (caching it first), else answer as to a newcomer. */
  function RouteSpec(w: World, user: Database.User, identity: string, message: string, c: Ctx): Outcome
    requires WellFormed(w)
  {
    if 5 in c.failing then Apology(w)
    else match Redis.GetConversationState(w.cache, identity, c.now)
      case Some(conv) =>
        assert w.cache[Redis.ConvKey(identity)].value == Redis.Doc(conv);
        ContinueSpec(w, user, identity, conv, message, c, 6)
      case None =>
        if 6 in c.failing then Apology(w)
        else match Database.GetActiveConversation(w.db.conversations, user.id, c.now)
          case None => StartSpec(w, user, identity, message, c, 7)
          case Some(row) =>
            var conv := Redis.CachedConversation(row.id, row.state, row.data);
            if 7 in c.failing then Apology(w)
            else ContinueSpec(w.(cache := Redis.SetConversationState(w.cache, identity, conv, c.now)), user, identity, conv, message, c, 8)
  }

  /** `handleIncomingSMS`: log, count against the rate limit, look the user
      up (creating it), then route. Position 4 is the user insert, issued
      only when the lookup does not find the identity's row. */
  function HandleSpec(w: World, identity: string, message: string, c: Ctx): Outcome
    requires WellFormed(w)
  {
    var w0 := Logged(w, identity, message, c);
    var run := Redis.RateCheckRun(w0.cache, identity, c.now, Redis.MaxRequests, Redis.RateWindow, RateFaultsOf(c));
    var w1 := w0.(cache := run.0);
    if run.1.None? then Apology(w1)
    else if !run.1.value.allowed then Outcome(w1, Some(TooManyText), None)
    else if 4 in c.failing && !Database.FindsUser(w1.db.users, identity) then Apology(w1)
    else
      var (users, user) := Database.CreateOrGetUser(w1.db.users, identity);
      var w2 := w1.(db := w1.db.(users := users));
      RateCheckKeeps(w0, identity, c.now, RateFaultsOf(c));
      UserKeeps(w1, identity);
      RouteSpec(w2, user, identity, message, c)
  }

  // ---------------------------------------------------------------------
  // Dispatching a story request

  /** A text message sent out through the SMS provider (which reports
      failures instead of throwing). */
  datatype Notification = Notification(to: string, text: string)

  datatype Processed = Processed(db: Database.Tables, notification: Option<Notification>)

  /** A patch through `updateStoryRequest` as store call `k`: the tables it
      leaves and whether it threw. */
  function PatchRun(db: Database.Tables, id: nat, p: Database.Patch, c: Ctx, k: nat): (Database.Tables, bool) {
    if k in c.failing then (db, true)
    else match Database.UpdateStoryRequest(db.requests, id, p)
      case None => (db, true)
      case Some(rs) => (db.(requests := rs), false)
  }

  /** The `catch` of `processStoryRequest`: mark the request failed as store
      call `k`. */
  function Recover(db: Database.Tables, id: nat, c: Ctx, k: nat): Processed {
    Processed(PatchRun(db, id, Database.MarkFailed, c, k).0, None)
  }

  /** `processStoryRequest`: mark the request as calling, place the call
      through the voice service, and record the outcome; a failed call is
      reported by text to the user looked up under the storyteller's
      phone (position 2 is that user's insert, issued only when the lookup
      does not find the phone's row). */
  function ProcessSpec(db: Database.Tables, req: Database.StoryRequest, vapi: VapiClient.VapiService, c: Ctx): Processed {
    DispatchSpec(db, req, VapiClient.CreateCallForStoryRequest(req, vapi), c)
  }

  /** `processStoryRequest` once the voice service's answer to the call is
      known as `result`. The service is asked only after the first store
      call succeeded; asking has no effect on the stores, so the answer can
      be taken as given. */
  function DispatchSpec(db: Database.Tables, req: Database.StoryRequest, result: VapiClient.CallResult, c: Ctx): Processed {
    var (db0, threw0) := PatchRun(db, req.id, Database.MarkCalling(c.now), c, 0);
    if threw0 then Recover(db0, req.id, c, 1)
    else
      if result.success then
        var (db1, threw1) := PatchRun(db0, req.id, Database.MarkProcessing(result.assistantId, result.callId), c, 1);
        if threw1 then Recover(db1, req.id, c, 2) else Processed(db1, None)
      else
        var (db1, threw1) := PatchRun(db0, req.id, Database.MarkFailed, c, 1);
        if threw1 then Recover(db1, req.id, c, 2)
        else if 2 in c.failing && !Database.FindsUser(db1.users, ShowNull(req.storytellerPhone)) then Recover(db1, req.id, c, 3)
        else
          var (users, user) := Database.CreateOrGetUser(db1.users, ShowNull(req.storytellerPhone));
          Processed(db1.(users := users), Some(Notification(user.phoneNumber, FailureNotice(req.storytellerName))))
  }

  // ---------------------------------------------------------------------
  // The handler over mutable stores

  /** The conversation object the handler works on: read from the cache or
      the durable record, changed in place, then written back. */
  class Conversation {
    var id: nat
    var state: State
    var data: Data

    constructor (doc: Redis.CachedConversation)
      ensures Doc() == doc
    {
      id, state, data := doc.id, doc.state, doc.data;
    }

    function Doc(): Redis.CachedConversation
      reads this
    {
      Redis.CachedConversation(id, state, data)
    }
  }

  class Handler {
    const cache: Redis.RedisService
    const db: Database.DB

    constructor (cache: Redis.RedisService, db: Database.DB)
      ensures this.cache == cache && this.db == db
    {
      this.cache := cache;
      this.db := db;
    }

    function Stores(): World
      reads cache, db
    {
      World(cache.entries, db.Snapshot())
    }

    /** Writes the transformed answer into the field of `state`. */
    method UpdateConversationData(conversation: Conversation, state: State, input: Value)
      requires FieldOf(state).Some? ==> conversation.data.Form? && Fits(state, input)
      modifies conversation
      ensures conversation.data == StoreAnswer(old(conversation.data), state, input)
      ensures conversation.id == old(conversation.id) && conversation.state == old(conversation.state)
    {
      if FieldOf(state).None? {
        return;
      }
      var f := conversation.data.form;
      var st := f.storyteller;
      match state {
        case CollectingName => st := st.(name := Some(input.text));
        case CollectingPhone => st := st.(phone := Some(input.text));
        case CollectingRelationship => st := st.(relationship := Some(input.text));
        case CollectingPersonality => st := st.(personality := Some(input.text));
        case CollectingBackground => st := st.(background := Some(input.text));
        case CollectingQuestions => f := f.(questions := input.items);
        case CollectingMoreQuestions => f := f.(questions := input.items);
        case CollectingAvoidTopics => f := f.(avoidTopics := input.items);
        case CollectingAiStyle => f := f.(aiStyle := if input.Text? then Some(input.text) else None);
        case CollectingSchedule => f := f.(scheduledTime := Some(input.schedule));
      }
      conversation.data := Form(f.(storyteller := st));
    }

    method CancelConversation(identity: string, id: nat, c: Ctx, k: nat) returns (threw: bool)
      modifies cache, db
      ensures Run(Stores(), threw) == CancelSpec(old(Stores()), identity, id, c, k)
    {
      if k in c.failing {
        return true;
      }
      cache.DeleteConversation(identity);
      if id == 0 {
        return false;
      }
      var ok := db.SetConversation(id, Cancelled, Cleared, c.now, k + 1 in c.failing);
      threw := !ok;
    }

    method StartNewConversation(user: Database.User, identity: string, message: string, c: Ctx, k: nat) returns (reply: Option<string>)
      modifies cache, db
      ensures Outcome(Stores(), reply, None) == StartSpec(old(Stores()), user, identity, message, c, k)
    {
      var key := Keyword(message);
      if key == "help" {
        return Some(HelpText);
      }
      if key == "status" {
        return Some(StatusText(user.totalRecordings));
      }
      if key == "start" || key == "hello" || key == "hi" {
        var row := db.NewConversation(user.id, Initial, Form(InitialForm), c.now, k in c.failing);
        if row.None? {
          return Some(ApologyText);
        }
        if k + 1 in c.failing {
          return Some(ApologyText);
        }
        var doc := Redis.CachedConversation(row.value.id, row.value.state, row.value.data);
        cache.SetConversation(identity, doc, c.now);
        return GetPrompt(Initial, None, c.dates);
      }
      return Some(InvitationText);
    }

    method CompleteConversation(user: Database.User, identity: string, conversation: Conversation, c: Ctx, k: nat)
      returns (reply: Option<string>, dispatch: Option<Database.StoryRequest>)
      requires conversation.data.Form?
      modifies cache, db
      ensures Outcome(Stores(), reply, dispatch) == CompleteSpec(old(Stores()), user, identity, old(conversation.data).form, c, k)
    {
      var form := conversation.data.form;
      var req := db.NewStoryRequest(user.id, form, c.now, c.dates, k in c.failing);
      if req.None? {
        return Some(CompletionFailedText), None;
      }
      if k + 1 in c.failing {
        return Some(CompletionFailedText), None;
      }
      cache.DeleteConversation(identity);
      var name := ShowUndefined(form.storyteller.name);
      if form.scheduledTime == Some(Now) {
        reply, dispatch := Some(CallingNowText(name)), req;
      } else {
        reply, dispatch := Some(CallLaterText(name)), None;
      }
    }

    method CancelWith(identity: string, id: nat, c: Ctx, k: nat, text: string) returns (reply: Option<string>)
      modifies cache, db
      ensures Outcome(Stores(), reply, None) == CancelOutcome(old(Stores()), identity, id, c, k, text)
    {
      var threw := CancelConversation(identity, id, c, k);
      reply := Some(if threw then ApologyText else text);
    }

    /** The tail of `continueConversation` once the conversation has moved
        to its next state. */
    method Advance(identity: string, conversation: Conversation, c: Ctx, k: nat) returns (reply: Option<string>)
      requires conversation.data.Form?
      modifies cache, db
      ensures Outcome(Stores(), reply, None) == AdvanceSpec(old(Stores()), identity, old(conversation.Doc()), c, k)
    {
      if k in c.failing {
        return Some(ApologyText);
      }
      cache.SetConversation(identity, conversation.Doc(), c.now);
      var ok := db.SetConversation(conversation.id, conversation.state, conversation.data, c.now, k + 1 in c.failing);
      if !ok {
        return Some(ApologyText);
      }
      reply := GetPrompt(conversation.state, Some(conversation.data.form), c.dates);
    }

    /** The part of `continueConversation` after the input was accepted. */
    method Accept(user: Database.User, identity: string, conversation: Conversation, message: string, c: Ctx, k: nat)
      returns (reply: Option<string>, dispatch: Option<Database.StoryRequest>)
      requires DocOk(conversation.state, conversation.data)
      modifies cache, db, conversation
      ensures Outcome(Stores(), reply, dispatch) == AcceptSpec(old(Stores()), user, identity, old(conversation.Doc()), message, c, k)
    {
      var doc := conversation.Doc();
      var currentState := conversation.state;
      var transformed := TransformInput(currentState, message, conversation.data, c.now);
      TransformFits(currentState, message, conversation.data, c.now);
      UpdateConversationData(conversation, currentState, transformed);
      assert conversation.data == Answered(doc, message, c.now);
      var nextState := GetNextState(currentState, message);
      dispatch := None;
      if nextState.None? {
        reply := CancelWith(identity, conversation.id, c, k, RestartText);
      } else if nextState.value == Completed {
        reply, dispatch := CompleteConversation(user, identity, conversation, c, k);
      } else if nextState.value == Cancelled {
        reply := CancelWith(identity, conversation.id, c, k, SetupCancelledText);
      } else {
        conversation.state := nextState.value;
        reply := Advance(identity, conversation, c, k);
      }
    }

    method ContinueConversation(user: Database.User, identity: string, conversation: Conversation, message: string, c: Ctx, k: nat)
      returns (reply: Option<string>, dispatch: Option<Database.StoryRequest>)
      requires DocOk(conversation.state, conversation.data)
      modifies cache, db, conversation
      ensures Outcome(Stores(), reply, dispatch) == ContinueSpec(old(Stores()), user, identity, old(conversation.Doc()), message, c, k)
    {
      var key := Keyword(message);
      if key == "cancel" || key == "stop" {
        reply := CancelWith(identity, conversation.id, c, k, CancelledText);
        return reply, None;
      }
      if !ValidateInput(conversation.state, message) {
        return Some(GetError(conversation.state)), None;
      }
      reply, dispatch := Accept(user, identity, conversation, message, c, k);
    }

    method HandleIncomingSMS(identity: string, message: string, c: Ctx)
      returns (reply: Option<string>, dispatch: Option<Database.StoryRequest>)
      requires WellFormed(Stores())
      modifies cache, db
      ensures Outcome(Stores(), reply, dispatch) == HandleSpec(old(Stores()), identity, message, c)
    {
      dispatch := None;
      db.LogSMS(identity, "inbound", message, 0 in c.failing);
      ghost var w0 := Stores();
      var rateLimit := cache.RateCheck(identity, c.now, Redis.MaxRequests, Redis.RateWindow, RateFaultsOf(c));
      RateCheckKeeps(w0, identity, c.now, RateFaultsOf(c));
      if rateLimit.None? {
        return Some(ApologyText), None;
      }
      if !rateLimit.value.allowed {
        return Some(TooManyText), None;
      }
      ghost var w1 := Stores();
      var user := db.GetOrCreateUser(identity, 4 in c.failing);
      if user.None? {
        return Some(ApologyText), None;
      }
      UserKeeps(w1, identity);
      reply, dispatch := Route(user.value, identity, message, c);
    }

    /** The message of a known user, once it passed the rate limit. */
    method Route(user: Database.User, identity: string, message: string, c: Ctx)
      returns (reply: Option<string>, dispatch: Option<Database.StoryRequest>)
      requires WellFormed(Stores())
      modifies cache, db
      ensures Outcome(Stores(), reply, dispatch) == RouteSpec(old(Stores()), user, identity, message, c)
    {
      dispatch := None;
      if 5 in c.failing {
        return Some(ApologyText), None;
      }
      var cached := cache.GetConversation(identity, c.now);
      var k := 6;
      if cached.None? {
        var found := db.ActiveConversation(user.id, c.now, 6 in c.failing);
        if found.None? {
          return Some(ApologyText), None;
        }
        if found.value.None? {
          reply := StartNewConversation(user, identity, message, c, 7);
          return;
        }
        var row := found.value.value;
        cached := Some(Redis.CachedConversation(row.id, row.state, row.data));
        if 7 in c.failing {
          return Some(ApologyText), None;
        }
        cache.SetConversation(identity, cached.value, c.now);
        k := 8;
      }
      var conversation := new Conversation(cached.value);
      reply, dispatch := ContinueConversation(user, identity, conversation, message, c, k);
    }

    method PatchAs(id: nat, p: Database.Patch, c: Ctx, k: nat) returns (threw: bool)
      modifies db
      ensures (db.Snapshot(), threw) == PatchRun(old(db.Snapshot()), id, p, c, k)
    {
      var ok := db.PatchStoryRequest(id, p, k in c.failing);
      threw := !ok;
    }

    method Recovering(id: nat, c: Ctx, k: nat) returns (notification: Option<Notification>)
      modifies db
      ensures Processed(db.Snapshot(), notification) == Recover(old(db.Snapshot()), id, c, k)
    {
      var _ := PatchAs(id, Database.MarkFailed, c, k);
      notification := None;
    }

    method ProcessStoryRequest(req: Database.StoryRequest, vapi: VapiClient.VapiService, c: Ctx)
      returns (notification: Option<Notification>)
      modifies db
      ensures Processed(db.Snapshot(), notification) == ProcessSpec(old(db.Snapshot()), req, vapi, c)
    {
      var result := VapiClient.CreateCallForStoryRequest(req, vapi);
      notification := Dispatch(req, result, c);
    }

    /** The store calls of `processStoryRequest` around a call whose outcome
        is `result`. */
    method Dispatch(req: Database.StoryRequest, result: VapiClient.CallResult, c: Ctx)
      returns (notification: Option<Notification>)
      modifies db
      ensures Processed(db.Snapshot(), notification) == DispatchSpec(old(db.Snapshot()), req, result, c)
    {
      var threw := PatchAs(req.id, Database.MarkCalling(c.now), c, 0);
      if threw {
        notification := Recovering(req.id, c, 1);
        return;
      }
      if result.success {
        threw := PatchAs(req.id, Database.MarkProcessing(result.assistantId, result.callId), c, 1);
        if threw {
          notification := Recovering(req.id, c, 2);
          return;
        }
        return None;
      }
      threw := PatchAs(req.id, Database.MarkFailed, c, 1);
      if threw {
        notification := Recovering(req.id, c, 2);
        return;
      }
      var user := db.GetOrCreateUser(ShowNull(req.storytellerPhone), 2 in c.failing);
      if user.None? {
        notification := Recovering(req.id, c, 3);
        return;
      }
      notification := Some(Notification(user.value.phoneNumber, FailureNotice(req.storytellerName)));
    }
  }
}
