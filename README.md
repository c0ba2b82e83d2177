# OldVoice conversation engine in Dafny

OldVoice sets up recorded phone interviews with a relative by text message. The
same conversation runs over SMS and over Telegram. This project models the
engine behind it and proves properties of the model.

- **Dialogue table.** `ConversationStates` has the fourteen named states and the
  constant transition table. Each entry gives a successor, a validator, a
  transform, a prompt and an error text. The module also has the five lookup
  helpers `getNextState`, `validateInput`, `transformInput`, `getPrompt` and
  `getError`.
- **Stores.** The two store tiers are in-memory tables on an integer
  millisecond clock. `Redis` is a key/value map whose entries may expire. It
  holds the `conv:<identity>` documents and the `rate:<identity>` counters.
  `Database` holds the users, conversations, story_requests and sms_logs tables,
  with ids that count up from 1. Each module gives pure functions over the
  table values and a class (`RedisService`, `DB`) whose methods update fields
  in place and are proved equal to those functions.
- **Message handler.** `SmsHandler` handles one inbound message for one
  identity. It logs the message, counts it against the rate limit, finds or
  creates the user, and reads the cached conversation, falling back to the
  durable one. Then it starts, continues, completes or cancels a conversation.
  - `HandleSpec` and its helpers say what one message does to a `World`, which
    is the cache plus the tables.
  - The `Handler` class performs the same steps on its two store objects.
    `Handler.HandleIncomingSMS` is proved to leave exactly the world, reply
    and dispatch that `HandleSpec` computes.
  - `processStoryRequest` is modelled the same way: `ProcessSpec`/`DispatchSpec`
    and `Handler.ProcessStoryRequest`.
- **Pure renderers.** `VapiClient` builds the interviewer's system prompt and
  the assistant configuration. It also gives the result shapes of placing a
  call and of fetching a recording. `TelegramWebhook` and `TestTelegram` pick
  the quick-reply keyboard from a reply's text, and form the `telegram_<chat
  id>` identity.
- **Local simulation script.** `Scenario` and `TestSms` replay the script's
  thirteen messages from empty stores. They prove what the code as written
  does: the conversation stalls in COLLECTING_PHONE, with the storyteller's
  phone number stored as the name.

Store failures are modelled explicitly. `Ctx.failing` is the set of positions,
counted from 0 in the order the handler issues its store calls, whose call
throws for this message. Every branch of the `try`/`catch` is then reachable.
The rate check's three Redis commands have their own positions: INCR is 1,
EXPIRE is 2 (issued only when the count becomes 1) and TTL is 3. A throw does
not undo the commands before it. An EXPIRE that throws leaves the counter
without an expiry, which locks the identity out once the limit is reached
(`Redis.LostExpireLocksOut`, `HandlerBehaviour.LockedOutForGood`).
`WellFormed` is the store invariant, and every message preserves it
(`HandlerProperties.HandleKeeps`). The invariant says:

- documents are cached only under `conv:` keys;
- a conversation in a state of the dialogue carries a form;
- conversation ids are serial;
- there is at most one user per identity. This conjunct holds only because
  the user lookup is modelled as never failing on its own (see "## Left out",
  `Database.DB.GetOrCreateUser`).

Behaviours of the code a reader may not expect:

- there is no reset keyword;
- `start` opens a conversation only when none is found
  (`HandlerBehaviour.NoStartOver`);
- the durable fallback does not skip cancelled or confirmed records
  (`HandlerBehaviour.CancelledComesBack`, `HandlerBehaviour.CompletedComesBack`);
- completion clears only the cache;
- the thirteen-message script does not reach COMPLETED (`TestSms.TestSmsStalls`).

## Model

| member | source | states |
|---|---|---|
| ConversationStates.ParseState | lib/conversation-states.js:1-16 | a name that parses gives a state whose stored name is exactly that name |
| ConversationStates.ParseStateName | lib/conversation-states.js:1-16 | every state's stored name reads back as that state, so no two states share a name |
| ConversationStates.GetNextState | lib/conversation-states.js:164-173 | the successor is None exactly for the states without a table entry (COMPLETED, CANCELLED) |
| ConversationStates.ValidateInput | lib/conversation-states.js:175-179 | a state without an entry or without a validator accepts every input |
| ConversationStates.TransformInput | lib/conversation-states.js:181-185 | a state without an entry or without a transform returns the raw input unchanged |
| ConversationStates.GetPrompt | lib/conversation-states.js:187-196 | there is no prompt exactly for the states without an entry and for CONFIRMING, whose entry has no prompt field |
| ConversationStates.GetError | lib/conversation-states.js:198-201 | the entry's own error text when it has one, otherwise the generic "Invalid input" text |
| ConversationStates.InitialPromptIsStatic | lib/conversation-states.js:19-22 | INITIAL's prompt is the fixed greeting asking for the name, whatever data is passed |
| ConversationStates.SuccessorsFollowChain | lib/conversation-states.js:19-157 | the fixed successors run INITIAL, NAME, PHONE, RELATIONSHIP, PERSONALITY, BACKGROUND, QUESTIONS, MORE_QUESTIONS, AVOID_TOPICS, AI_STYLE, SCHEDULE, CONFIRMING; the question loop moves on only on 'done' in any case |
| ConversationStates.EntriesAndValidators | lib/conversation-states.js:18-158 | only COMPLETED and CANCELLED lack an entry; only INITIAL has an entry without a validator; INITIAL, COMPLETED and CANCELLED accept anything |
| ConversationStates.ErrorTexts | lib/conversation-states.js:27-156 | NAME, PHONE, AI_STYLE and CONFIRMING have their own error texts, and every other state reports the generic one (both directions) |
| ConversationStates.PhoneRule | lib/conversation-states.js:31-45 | a phone answer is accepted exactly when it has at least ten digits; it is stored as "+1" and the digits for ten digits, otherwise "+" and the digits |
| ConversationStates.CanonicalPhoneShape | lib/conversation-states.js:37-45 | a stored phone number is '+' followed by digits only |
| ConversationStates.PhoneCanonicalIdempotent | lib/conversation-states.js:37-45 | canonicalising an accepted number a second time leaves it unchanged |
| ConversationStates.FirstQuestionRule | lib/conversation-states.js:68-73 | the first question is accepted exactly when it is non-blank, moves to MORE_QUESTIONS, and is stored trimmed as a one-item list |
| ConversationStates.AvoidTopicsRule | lib/conversation-states.js:90-95 | 'none' in any case gives the empty list and any other non-blank answer a one-item list of the trimmed text; the next state is AI_STYLE |
| ConversationStates.QuestionLoop | lib/conversation-states.js:75-81 | lower-cased 'done' (untrimmed) moves to AVOID_TOPICS and keeps the list; any other answer stays and appends the trimmed text, one item longer |
| ConversationStates.QuestionLoopPrompt | lib/conversation-states.js:82-87 | the loop's prompt is the sensitive-topics text exactly when five or more questions are stored, and the 'done' text exactly when fewer are |
| ConversationStates.PromptsDiffer | lib/conversation-states.js:82-87 | the loop's two prompt texts are distinct |
| ConversationStates.StyleRule | lib/conversation-states.js:97-110 | exactly six answers are accepted in any case; 1/warm, 2/professional and 3/curious map to the three style names, and an answer maps to a style name exactly when it is accepted |
| ConversationStates.ScheduleRule | lib/conversation-states.js:115-140 | accepted exactly for the eight keywords or a time matching the clock pattern; 1/now give 'now', 2/30 and 3/60 give now plus 30 or 60 minutes, and every other answer is kept as typed |
| ConversationStates.ConfirmRule | lib/conversation-states.js:153-173 | yes/no/cancel in any case are accepted; the next state is COMPLETED exactly for 'yes' and CANCELLED otherwise; CONFIRMING, COMPLETED and CANCELLED have no prompt |
| JsText.Trim | lib/conversation-states.js:26 | the result is no longer than the input and neither starts nor ends with whitespace |
| JsText.TrimIsSlice | lib/conversation-states.js:26 | the trimmed result is a slice of the input with only whitespace before and after it |
| JsText.TrimUnchanged | lib/conversation-states.js:26 | trimming leaves a string alone exactly when it has no whitespace at either end |
| JsText.Lower | lib/sms-handler.js:56 | lower-casing keeps the length and maps each character on its own |
| JsText.LowerTrimCommute | lib/sms-handler.js:56 | lower-casing and trimming commute, so the order in the keyword check does not matter |
| JsText.Digits | lib/conversation-states.js:34 | the stripped text is all digits and no longer than the input |
| JsText.DigitsAppend | lib/conversation-states.js:34 | stripping the non-digits distributes over concatenation |
| JsText.JoinContains | lib/vapi-client.js:45 | every item occurs in the joined text |
| JsText.NatToStringInjective | lib/vapi-client.js:56 | different numbers print differently |
| JsText.IntToStringInjective | api/telegram-webhook.js:30 | different integers print differently |
| Redis.KeyFamiliesDisjoint | lib/redis.js:49-64 | a conversation key never equals a rate key, so counting never touches conversation state |
| Redis.ConvKeyInjective | lib/redis.js:49-59 | two identities share a conversation key exactly when they are equal |
| Redis.RateKeyInjective | lib/redis.js:64 | two identities share a rate key exactly when they are equal |
| Redis.Lookup | lib/redis.js:32-36 | a key reads as a value exactly when it is present and unexpired, and then as the value stored |
| Redis.SetEx | lib/redis.js:27-30 | the key holds the value with an expiry of now plus the TTL, and every other key is unchanged |
| Redis.Delete | lib/redis.js:38-41 | the key is gone and every other key is unchanged |
| Redis.Incr | lib/redis.js:66 | the counter becomes one more than its current value (0 for a missing or expired key); it fails exactly on a live document; other keys are unchanged |
| Redis.Expire | lib/redis.js:68-70 | a live key gets the new expiry (a non-positive TTL deletes it), a dead key is left alone, other keys are unchanged |
| Redis.Ttl | lib/redis.js:75 | -2 for a missing or expired key, -1 for a key without expiry, otherwise non-negative |
| Redis.GetConversationState | lib/redis.js:49-51 | a cached conversation exactly when the `conv:` key reads as a document, and it is that document |
| Redis.SetThenGet | lib/redis.js:53-55 | after caching a conversation it reads back unchanged for the following hour |
| Redis.DeleteThenGet | lib/redis.js:57-59 | after deleting, the conversation reads as absent |
| Redis.OtherKeysUnaffected | lib/redis.js:38-59 | caching or deleting one identity's conversation leaves every other key reading as before |
| Redis.CheckRateLimit | lib/redis.js:62-77 | the counter goes up by exactly one; allowed exactly when the count is at most the maximum; remaining is the maximum minus the count, floored at 0; resetIn is the key's TTL after the update; the expiry is set only when the count becomes 1; every other key is unchanged |
| Redis.RateCheckRunCases | lib/redis.js:62-77 | the three commands one by one (RateCheckRun): with none throwing it is CheckRateLimit; a throwing INCR changes nothing; an EXPIRE throwing on a first count leaves the counter at 1 with no expiry; a throwing TTL leaves CheckRateLimit's keyspace |
| Redis.RateCheckRunFrame | lib/redis.js:62-77 | whichever commands throw, every key but the counter is unchanged, and the counter holds a count or what it held before |
| Redis.RateRunNoExpiry | lib/redis.js:65-75 | a counter without an expiry is never reset: check i of any run, at any instants, is allowed exactly when n + i + 1 is within the maximum, and the counter stays without an expiry |
| Redis.LostExpireLocksOut | lib/redis.js:65-70 | after a first count whose EXPIRE throws, of all later checks at any instants only the first maximum - 1 are allowed |
| Redis.RateRunWithin | lib/redis.js:62-77 | inside one open window, successive checks see consecutive counts and each is allowed exactly when its count is within the limit |
| Redis.RateWindowAllowsFirst | lib/redis.js:62-77 | from an identity without a live counter, the checks made within the window the first one opens are allowed exactly for the first maximum-many |
| Redis.FiftyPerHour | lib/redis.js:62-77 | with the defaults, messages 1 to 50 of a window are allowed and the 51st is not |
| Redis.RedisService.Set | lib/redis.js:27-30 | the keyspace becomes SETEX of the old keyspace |
| Redis.RedisService.Get | lib/redis.js:32-36 | returns the stored value exactly when the key is live |
| Redis.RedisService.Del | lib/redis.js:38-41 | the keyspace becomes DEL of the old keyspace |
| Redis.RedisService.GetConversation | lib/redis.js:49-51 | returns the cached conversation of the keyspace |
| Redis.RedisService.SetConversation | lib/redis.js:53-55 | caches the conversation under its `conv:` key for an hour |
| Redis.RedisService.DeleteConversation | lib/redis.js:57-59 | drops the identity's `conv:` key |
| Redis.RedisService.RateCheck | lib/redis.js:62-77 | INCR, then EXPIRE when the count is 1, then TTL, applied to the keyspace in place with the given commands throwing, give exactly the result and keyspace of RateCheckRun |
| Database.UsersWithPhone | lib/database.js:9-13 | the rows selected are exactly the users with that phone number |
| Database.UniqueMatch | lib/database.js:9-16 | with at most one user per phone, the lookup finds exactly the one matching row |
| Database.KnownUserFound | lib/database.js:9-16 | with unique phones, a phone that has a row is found as exactly one row |
| Database.CreateOrGetUser | lib/database.js:8-27 | the user returned has the phone and is in the table; an existing row is returned without inserting, otherwise one row with no recordings is appended; the table is left as it was exactly when the lookup finds one row (FindsUser); uniqueness of phones is kept |
| Database.CreateOrGetUserIdempotent | lib/database.js:8-27 | asking again for the same phone returns the same row and inserts nothing |
| Database.LatestActive | lib/database.js:30-42 | the row found is the user's, unexpired, and created no earlier than any other active row; there is none exactly when no row is active |
| Database.GetActiveConversation | lib/database.js:30-42 | the most recently created unexpired conversation of the user, whatever its state, or None exactly when there is no such row |
| Database.LatestActiveUnique | lib/database.js:30-42 | a row meeting the selection's conditions is the one selected |
| Database.FoundStaysFound | lib/database.js:30-42 | the row found stays the one found until its expiry |
| Database.RewrittenStaysFound | lib/database.js:30-74 | rewriting the row found keeps it the one found, with the new state and data, for the hour its new expiry grants |
| Database.CreateConversation | lib/database.js:44-58 | one row is appended with the next id, the given state and data, and an expiry one hour from now |
| Database.UpdateConversation | lib/database.js:60-74 | the row with the id gets the new state and data and an expiry one hour from now, every other row is unchanged; an unknown id is an error |
| Database.ScheduledFor | lib/database.js:85-87 | now for 'now', the instant for a resolved time, the date library's parse of a typed time, and no value without a time |
| Database.CreateStoryRequest | lib/database.js:77-94 | appends one pending request that copies the storyteller's name and phone into their own columns, keeps the whole form and records the scheduled instant; an invalid date is an error |
| Database.UpdateStoryRequest | lib/database.js:96-106 | the patch is applied to the request with the id and to no other; an unknown id is an error |
| Database.DueRequests | lib/database.js:108-118 | keeps every pending or scheduled request due by now, as many times as it occurs, and nothing else |
| Database.InsertBySchedule | lib/database.js:114 | insertion adds exactly the one element |
| Database.InsertSorted | lib/database.js:114 | inserting into a list ordered by schedule keeps it ordered |
| Database.SortBySchedule | lib/database.js:114 | the result is ordered by `scheduled_for` and a permutation of the input |
| Database.PendingStoryRequests | lib/database.js:108-118 | exactly the pending or scheduled requests with `scheduled_for` at or before now, with their multiplicities, in ascending `scheduled_for` order |
| Database.DB.LogSMS | lib/database.js:121-133 | appends one log row, or changes nothing when the insert fails; it never throws |
| Database.DB.GetOrCreateUser | lib/database.js:8-27 | the users table and the result are those of CreateOrGetUser; when the insert throws, which needs the lookup to have found no single row, the table is unchanged and there is no result |
| Database.DB.ActiveConversation | lib/database.js:30-42 | returns GetActiveConversation of the table, or fails |
| Database.DB.NewConversation | lib/database.js:44-58 | the conversations table and the row are those of CreateConversation, or unchanged when the call fails |
| Database.DB.SetConversation | lib/database.js:60-74 | the conversations table is that of UpdateConversation, and it reports success exactly when the row existed and the call did not fail |
| Database.DB.NewStoryRequest | lib/database.js:77-94 | the requests table and the row are those of CreateStoryRequest, or unchanged when the call fails or the date is invalid |
| Database.DB.PatchStoryRequest | lib/database.js:96-106 | the requests table is that of UpdateStoryRequest, and it reports success exactly when the row existed and the call did not fail |
| VapiClient.StyleSentence | lib/vapi-client.js:38-42 | each of the three style names selects its own sentence; any other value renders "undefined" |
| VapiClient.QuestionLines | lib/vapi-client.js:56 | one line per question, in order, line i reading "i+1. question" |
| VapiClient.IntroTarget | lib/vapi-client.js:66 | the introduction names either "grandchild/child" or "family member" |
| VapiClient.PromptStartsWithStyle | lib/vapi-client.js:48 | the prompt begins with the sentence of the chosen style |
| VapiClient.PromptListsQuestions | lib/vapi-client.js:55-56 | every question appears in the prompt as its numbered line |
| VapiClient.AvoidSectionShape | lib/vapi-client.js:44-46 | the avoid section is empty exactly when there are no topics; otherwise it starts with the heading and contains every topic |
| VapiClient.PromptClosing | lib/vapi-client.js:66 | the prompt ends with the closing sentence, which names the caller as grandchild/child exactly for a grandmother or mother |
| VapiClient.AssistantFor | lib/vapi-client.js:69-100 | the assistant's system prompt is the built prompt, recording is enabled and calls last at most 30 minutes |
| VapiClient.CreateCallForStoryRequest | lib/vapi-client.js:114-138 | success exactly when both requests are accepted, with the assistant and call ids, dialling the request's storyteller phone; otherwise an unsuccessful result carrying the error |
| VapiClient.GetRecording | lib/vapi-client.js:144-151 | exactly the recording URL, transcript and duration of the fetched call |
| SmsHandler.TransformFits | lib/conversation-states.js:181-185 | whatever a state's transform returns has the shape of the field that state's answer is stored under |
| SmsHandler.StoreAnswer | lib/sms-handler.js:140-173 | an answer accepted in a state with a field replaces that field and leaves every other field unchanged; in INITIAL, CONFIRMING and the end states the data is unchanged |
| SmsHandler.Answered | lib/sms-handler.js:107-109 | folding an accepted answer in keeps a conversation inside the dialogue carrying a form |
| SmsHandler.RateCheckKeeps | lib/sms-handler.js:14 | counting a message keeps the stores well formed, whichever of the rate check's commands throw |
| SmsHandler.UserKeeps | lib/sms-handler.js:20 | finding or creating the user keeps the stores well formed |
| SmsHandler.Handler.UpdateConversationData | lib/sms-handler.js:140-173 | the conversation's data is updated in place to StoreAnswer of the old data; its id and state are unchanged |
| SmsHandler.Handler.CancelConversation | lib/sms-handler.js:204-209 | deleting the cache entry, then writing CANCELLED with `{}` data when there is an id, leaves the stores as CancelSpec says, and reports a throw |
| SmsHandler.Handler.StartNewConversation | lib/sms-handler.js:54-89 | the stores and reply are those of StartSpec |
| SmsHandler.Handler.CompleteConversation | lib/sms-handler.js:175-202 | the stores, reply and dispatched request are those of CompleteSpec |
| SmsHandler.Handler.CancelWith | lib/sms-handler.js:96-99 | cancels and answers with the given text, or the apology when cancelling threw |
| SmsHandler.Handler.Advance | lib/sms-handler.js:130-137 | caching and then writing the moved conversation, and replying with its prompt, are those of AdvanceSpec |
| SmsHandler.Handler.Accept | lib/sms-handler.js:107-137 | the stores, reply and dispatch after an accepted answer are those of AcceptSpec |
| SmsHandler.Handler.ContinueConversation | lib/sms-handler.js:91-138 | the stores, reply and dispatch are those of ContinueSpec |
| SmsHandler.Handler.HandleIncomingSMS | lib/sms-handler.js:8-52 | one message leaves exactly the world, reply and dispatch that HandleSpec computes |
| SmsHandler.Handler.Route | lib/sms-handler.js:22-51 | after the rate check and the user lookup, the conversation lookup and the hand-off leave exactly the world, reply and dispatch that RouteSpec computes |
| SmsHandler.Handler.PatchAs | lib/database.js:96-106 | a status update as one store call, as PatchRun says |
| SmsHandler.Handler.Recovering | lib/sms-handler.js:241-246 | the catch marks the request failed and sends nothing |
| SmsHandler.Handler.ProcessStoryRequest | lib/sms-handler.js:211-247 | the tables and the failure text sent are those of ProcessSpec over the voice service |
| SmsHandler.Handler.Dispatch | lib/sms-handler.js:211-247 | for a known call result, the tables and the failure text sent are those of DispatchSpec, the storyteller's user insert throwing only when its lookup finds no single row |
| HandlerProperties.CacheSetKeeps | lib/redis.js:53-55 | caching a conversation that carries a form keeps the stores well formed |
| HandlerProperties.RowsUpdateKeeps | lib/database.js:60-74 | updating a conversation row whose data fits its state keeps the stores well formed |
| HandlerProperties.CancelKeeps | lib/sms-handler.js:204-209 | cancelling keeps the stores well formed |
| HandlerProperties.CreateKeeps | lib/sms-handler.js:71-75 | creating the INITIAL conversation keeps the stores well formed |
| HandlerProperties.StartKeeps | lib/sms-handler.js:54-89 | answering a newcomer keeps the stores well formed |
| HandlerProperties.CompleteKeeps | lib/sms-handler.js:175-202 | completing keeps the stores well formed |
| HandlerProperties.AdvanceKeeps | lib/sms-handler.js:130-137 | moving on keeps the stores well formed |
| HandlerProperties.CancelOutcomeKeeps | lib/sms-handler.js:96-128 | every cancelling branch keeps the stores well formed |
| HandlerProperties.AcceptKeeps | lib/sms-handler.js:107-137 | an accepted answer keeps the stores well formed |
| HandlerProperties.ContinueKeeps | lib/sms-handler.js:91-138 | continuing a conversation keeps the stores well formed |
| HandlerProperties.CachedDocOk | lib/sms-handler.js:23 | a conversation read from the cache of a well-formed world carries a form while it is in the dialogue |
| HandlerProperties.RowDocOk | lib/sms-handler.js:27-33 | a conversation reloaded from the durable tier of a well-formed world carries a form while it is in the dialogue |
| HandlerProperties.RouteKeeps | lib/sms-handler.js:23-46 | routing a message keeps the stores well formed |
| HandlerProperties.HandleKeeps | lib/sms-handler.js:8-52 | every message keeps the stores well formed, whichever of the modelled store calls throw (the user lookup's own error is not among them) |
| HandlerBehaviour.RateCheckDefined | lib/redis.js:62-77 | in a well-formed world the rate counter never holds a document, so counting is defined |
| HandlerBehaviour.RateLimitedTouchesNothing | lib/sms-handler.js:14-17 | a message over the limit gets the fixed text, dispatches nothing and leaves every table but the log, and every key but its counter, as they were |
| HandlerBehaviour.EarlyThrowApologises | lib/sms-handler.js:48-51 | a throwing INCR turns into the apology with only the log line written |
| HandlerBehaviour.ExpireThrowLeavesCounter | lib/sms-handler.js:14 | an EXPIRE throwing on the window's first message turns into the apology and leaves the counter at 1 with no expiry |
| HandlerBehaviour.TtlThrowKeepsCount | lib/sms-handler.js:14 | a throwing TTL turns into the apology and leaves the counter raised, as a rate check without faults leaves it |
| HandlerBehaviour.UserThrowApologises | lib/sms-handler.js:20 | a throwing user insert (lib/database.js:25) turns into the apology after the counter was raised, unless the message was over the limit; when the lookup finds the identity's row no insert is issued and the message is routed as usual |
| HandlerBehaviour.LockedOutForGood | lib/sms-handler.js:14-17 | a counter without an expiry that reached the limit refuses the message, at any time, and stays without an expiry one higher |
| HandlerBehaviour.LogOnlyAppends | lib/database.js:121-133 | logging appends one line, or nothing when the insert fails, and changes nothing else |
| HandlerBehaviour.NoStartOver | lib/sms-handler.js:40-46 | a cached conversation is always continued, whatever the message says, `start` included |
| HandlerBehaviour.CacheMissReloads | lib/sms-handler.js:23-37 | on a cache miss the durable conversation is cached as `{id, state, data}`, reads back as exactly that, and is continued |
| HandlerBehaviour.NewcomerReplies | lib/sms-handler.js:54-89 | with no conversation, 'help' and 'status' give their fixed replies and anything but an opener gets the invitation, all writing nothing |
| HandlerBehaviour.OpenerCreates | lib/sms-handler.js:69-86 | an opener appends one INITIAL row with the empty form, caches it, and replies with the INITIAL prompt |
| HandlerBehaviour.OpenerOutcome | lib/sms-handler.js:69-86 | the exact world an opener leaves: the new row appended and its document cached |
| HandlerBehaviour.CancelWrites | lib/sms-handler.js:204-209 | cancelling a stored conversation drops its cached copy and writes it CANCELLED with `{}` data and a fresh hour; users, requests and logs are untouched |
| HandlerBehaviour.CancelCheckedFirst | lib/sms-handler.js:95-99 | 'cancel' or 'stop' cancels in every state, before validation, with the cancellation text |
| HandlerBehaviour.RejectedChangesNothing | lib/sms-handler.js:101-105 | rejected input gets the state's error text and leaves the world exactly as it was |
| HandlerBehaviour.AnswersLag | lib/sms-handler.js:140-173 | the answer to the INITIAL prompt, which asks for the name, is stored nowhere; the answer given in COLLECTING_NAME, whose prompt asks for the phone, is stored untrimmed as the name |
| HandlerBehaviour.AdvanceWrites | lib/sms-handler.js:130-137 | moving on caches the conversation, writes the same state and data to its durable row with a fresh hour, leaves other rows alone, and replies with the next prompt |
| HandlerBehaviour.CompletionRecordsOnce | lib/sms-handler.js:175-196 | completion appends exactly one pending request with the form, drops the cached copy, and dispatches it with the calling-now reply exactly when the time chosen was 'now' |
| HandlerBehaviour.CompletionNeedsDate | lib/database.js:85-92 | a time that is not a valid date makes completion fail with its fixed text and nothing written |
| HandlerBehaviour.CancelledComesBack | lib/sms-handler.js:114-117 | a cancelled record is found again; any message, `start` included, is answered with the restart text (or the cancellation text for cancel/stop), and the record is written CANCELLED again with `{}` data and a fresh hour, so it is found again by every message in that hour |
| HandlerBehaviour.YesCompletes | lib/sms-handler.js:119-122 | 'yes' in CONFIRMING, in any case, completes with the form as it stands |
| HandlerBehaviour.ConfirmingKeepsData | lib/sms-handler.js:140-173 | an answer in CONFIRMING is stored nowhere |
| HandlerBehaviour.ContinueAccepts | lib/sms-handler.js:91-109 | an accepted 'yes' is not taken for a cancel |
| HandlerBehaviour.AcceptCompletes | lib/sms-handler.js:119-122 | an accepted answer whose next state is COMPLETED completes the conversation |
| HandlerBehaviour.CompletedComesBack | lib/sms-handler.js:175-202 | after completion the durable record stays in CONFIRMING and is found again; another 'yes' records another story request and leaves the record unchanged |
| HandlerBehaviour.ProcessStatuses | lib/sms-handler.js:211-239 | the request is marked calling at the current time, then processing with the service's ids on success or failed otherwise; other requests are untouched; a text goes out exactly on failure |
| HandlerBehaviour.PatchExisting | lib/database.js:96-106 | a status update of a known request goes through and patches exactly that request |
| HandlerBehaviour.FailureNoticeGoesToStoryteller | lib/sms-handler.js:233-238 | the failure text is sent to the user found under the storyteller's phone number, only when the call failed |
| HandlerBehaviour.ProcessThrowMarksFailed | lib/sms-handler.js:241-246 | a throw while marking the request as calling ends with it marked failed and no text sent |
| Scenario.Replay | scripts/test-sms.js:32-40 | replaying keeps the stores well formed and gives one reply per message |
| Scenario.ReplayFirst | scripts/test-sms.js:32-40 | a replay handles its first message and then the rest a second later |
| Scenario.KnownStep | lib/sms-handler.js:8-46 | a message from a settled identity within its windows is logged, counted and continued with the cached conversation |
| Scenario.RefusedStep | lib/sms-handler.js:101-105 | within its windows, a refused message gets the error text and leaves the identity settled with its counter one higher |
| Scenario.AdvancedStep | lib/sms-handler.js:107-137 | an accepted message moving on to a dialogue state is answered with that state's prompt and settles the identity in it |
| Scenario.CountedAdvance | lib/sms-handler.js:130-137 | moving on right after a message was counted settles the conversation in the new state for a fresh hour |
| Scenario.AcceptAdvances | lib/sms-handler.js:101-137 | an accepted message whose next state has an entry moves the conversation there with the answer folded in |
| Scenario.ContinueAccepted | lib/sms-handler.js:95-109 | a message that neither cancels nor is refused is accepted |
| Scenario.AcceptMovesOn | lib/sms-handler.js:111-137 | an accepted answer whose next state is in the dialogue moves the conversation on |
| Scenario.AdvanceSettles | lib/sms-handler.js:130-137 | moving a settled conversation on keeps the identity settled |
| Scenario.OpeningStep | lib/sms-handler.js:8-86 | the first message of a new phone, 'start', is answered with the INITIAL prompt and leaves the started world |
| Scenario.StartedSettles | lib/sms-handler.js:69-86 | the started world is settled in INITIAL with a fresh hour and a count of one |
| Scenario.OpeningRoute | lib/sms-handler.js:11-42 | a new phone's message is logged, counted as the first, given user 1, and routed to the newcomer replies |
| Scenario.MissStarts | lib/sms-handler.js:23-42 | with nothing cached and nothing stored, the message goes to the newcomer replies |
| Scenario.HandleRoutes | lib/sms-handler.js:11-46 | a message that passes the rate limit with no store call failing is routed |
| Scenario.OpeningCount | lib/redis.js:62-77 | the first message of an identity without a live counter is allowed and opens a window of an hour |
| Scenario.RefusedRun | scripts/test-sms.js:32-40 | a run of refused messages gets the error text each time and leaves the conversation where it was |
| Scenario.RefusedFirst | lib/sms-handler.js:101-105 | the first message of a refused run leaves a settled world for the rest |
| Scenario.OpenFirst | scripts/test-sms.js:17 | the opener of a fresh phone leaves a settled world for the rest of the run |
| Scenario.AdvanceFirst | lib/sms-handler.js:130-137 | an accepted first message leaves a settled world in the next state for the rest of the run |
| TestSms.NotCommand | lib/sms-handler.js:93-96 | a message starting with a non-blank character other than c or s is neither 'cancel' nor 'stop' |
| TestSms.RefusedAsPhone | lib/conversation-states.js:33-36 | such a message with fewer than ten digits is refused in COLLECTING_PHONE |
| TestSms.FewDigits | scripts/test-sms.js:20-29 | each message after the phone number has fewer than ten digits |
| TestSms.LaterMessagesRefused | scripts/test-sms.js:20-29 | every message after the phone number is refused in COLLECTING_PHONE, with the phone error text |
| TestSms.GivenNameFacts | scripts/test-sms.js:18 | 'Grandma Rose', sent in INITIAL, moves to COLLECTING_NAME, is stored nowhere, and is answered by asking for the phone of "undefined" |
| TestSms.GivenPhoneFacts | scripts/test-sms.js:19 | the phone number, sent in COLLECTING_NAME, is stored as the name and answered by asking for the relationship to it |
| TestSms.GivenNameStep | scripts/test-sms.js:18 | the second message leaves the identity settled in COLLECTING_NAME |
| TestSms.GivenPhoneStep | scripts/test-sms.js:19 | the third message leaves the identity settled in COLLECTING_PHONE with the phone as the name |
| TestSms.ChainThree | scripts/test-sms.js:32-40 | three single replies chain into the replay of three messages |
| TestSms.OpeningThree | scripts/test-sms.js:17-19 | from a fresh phone, the first three replies are the INITIAL prompt, the phone question for "undefined" and the relationship question for the phone number |
| TestSms.ThenRefused | scripts/test-sms.js:32-40 | after those three, every later refused message gets the phone error text |
| TestSms.ScriptStalls | scripts/test-sms.js:16-40 | from a fresh phone, the thirteen messages end cached in COLLECTING_PHONE with the phone as the name, the last ten answered with the phone error, and no story request |
| TestSms.TestSmsStalls | scripts/test-sms.js:11-40 | from empty stores, the script never gets past COLLECTING_PHONE and never creates a story request |
| TelegramWebhook.Identity | api/telegram-webhook.js:29-30 | the identity is 'telegram_' followed by the chat id's numeral |
| TelegramWebhook.IdentityInjective | api/telegram-webhook.js:29-30 | two chats never share an identity |
| TelegramWebhook.IdentityIsNoPhone | api/telegram-webhook.js:29-30 | a chat identity never equals a stored '+' phone number |
| TelegramWebhook.GetKeyboardForState | api/telegram-webhook.js:58-83 | 'Choose one:' gives the 1/2/3 row first; otherwise "Reply 'done'" the done row; otherwise "Reply 'yes'" or "'cancel'" the yes/cancel row; otherwise "Reply 'none'" the none row; no keyboard exactly when no marker occurs |
| TelegramWebhook.Deliver | api/telegram-webhook.js:33-48 | a reply is sent exactly when the handler returned text, with a keyboard exactly when the text has a marker |
| TelegramWebhook.StyleMenuButtons | api/telegram-webhook.js:60-64 | the AI-style menu, shown on entering AVOID_TOPICS, offers 1/2/3, and a tapped button is stored as a topic to avoid |
| TelegramWebhook.ChoiceStoredAsTopic | lib/conversation-states.js:90-95 | a 1, 2 or 3 sent in AVOID_TOPICS is stored as the one topic to avoid |
| TelegramWebhook.StylePromptKeyboard | api/telegram-webhook.js:60-64 | the style menu text yields the 1/2/3 keyboard |
| TelegramWebhook.FirstQuestionButtons | api/telegram-webhook.js:65-69 | the questions prompt offers 'done', which in COLLECTING_QUESTIONS is stored as the first question |
| TelegramWebhook.QuestionsPromptText | api/telegram-webhook.js:65-69 | the questions prompt has "Reply 'done'" and no 'Choose one:' |
| TelegramWebhook.SensitiveTopicsButtons | api/telegram-webhook.js:75-79 | from the fifth question on the loop offers 'none', which is appended as another question |
| TelegramWebhook.SensitivePromptKeyboard | api/telegram-webhook.js:75-79 | the sensitive-topics text yields the none keyboard |
| TelegramWebhook.ScheduleMenuButtons | api/telegram-webhook.js:58-83 | the schedule menu, shown on entering AI_STYLE, comes with no keyboard |
| TelegramWebhook.PhoneErrorButtons | api/telegram-webhook.js:58-83 | a rejected phone number is answered with no keyboard |
| TelegramWebhook.ConfirmErrorButtons | api/telegram-webhook.js:70-74 | a rejected confirmation comes with the yes/cancel keyboard |
| TelegramWebhook.HelpButtons | api/telegram-webhook.js:70-74 | the help text mentions 'cancel', so it too comes with the yes/cancel keyboard |
| TestTelegram.Identity | scripts/test-telegram.js:29-30 | the same identity scheme as the webhook |
| TestTelegram.SameButtonsAsWebhook | scripts/test-telegram.js:52-67 | the two copies give the same buttons wherever the webhook offers some, and this one sets reply_markup.keyboard to {remove_keyboard: true} exactly where the webhook offers none |
| TestTelegram.FirstMatchWins | scripts/test-telegram.js:53-58 | a text with both 'Choose one:' and "Reply 'done'" gets the 1/2/3 row |
| TestTelegram.Deliver | scripts/test-telegram.js:33-48 | the reply is sent with its markup; for an undefined reply the log line before the send throws, and the chat gets the apology with no markup |
| TestTelegram.AnswersWhereWebhookIsSilent | scripts/test-telegram.js:33-48 | the polling bot answers (with the apology) exactly where the webhook sends nothing, and otherwise sends the same text |

## Left out

- `lib/redis.js` `getClient` (the lazily created client), `exists` and `cleanup` are connection management with no effect on the keyspace the engine reads.
- `lib/database.js` `cleanupExpiredConversations` is a stored procedure the code cannot see. Expiry is checked by timestamp in `GetActiveConversation` instead.
- `lib/vapi-client.js` `makeRequest`, `createAssistant`'s HTTP request, `createPhoneCall` and `getCall` are HTTP calls. They are the function values of `VapiService`, and the fetched call is the argument of `GetRecording`. Only the shape of the assistant that matters here (prompt, first message, recording, end phrases, duration) is modelled. The model, voice, transcriber and server URL settings are left out.
- The Twilio `sendSMS` of the failure notice is an outbound message. It is modelled as the `Notification` value the dispatch returns, and its result is ignored as in the code.
- Telegram's reaction to the polling bot's markup is left out: the bot puts `{remove_keyboard: true}` where `reply_markup.keyboard` expects button rows, and what Telegram does with that is outside the code.
- Table defaults the code relies on but never sets are assumed: a new user has `total_recordings` 0, a new conversation's `created_at` is the instant it is inserted (the model sets it to `now`), and a new story request has status `pending`.
- Database.LatestActive: on rows with equal `created_at` it picks the later-inserted one; the hosted query's order among such ties is unspecified.
- Telegram's `sendMessage` is modelled as the `Sent` values of `Deliver`. The webhook's early return for updates without text, its HTTP status codes, the `set-webhook` route and the polling bot's start-up are HTTP and bot plumbing.
- `setTimeout` scheduling of `processStoryRequest` a second after completion is modelled as the `dispatch` field of an `Outcome`. The replay does not follow it.
- Date handling (`new Date(...)`, ISO formatting, `toLocaleTimeString`) is a `DateLib` of function values. Relative schedules are resolved on the integer clock.
- JSON serialisation in the cache is assumed to round-trip. A cached document is the value itself.
- Concurrency is left out: messages are handled one at a time, and two in-flight messages for one identity do not interleave.
- Logging (`console`, `logger`) and `config/index.js` are left out.
- `scripts/test-sms.js` is used only for its phone number and message list. Its console output, delays (one second per message in the replay) and exit are not modelled.
- JsText.Lower: models `toLowerCase` on ASCII letters only. Every keyword the engine compares against is ASCII, but a non-ASCII capital is left unchanged where JavaScript would lower it.
- Redis.Ttl: states only the three cases -2, -1 and non-negative, not the rounding of the seconds the server reports.
- VapiClient.AssistantFor: states the prompt, recording and duration, not the name and first-message strings, which only interpolate the storyteller's name.
- Database.DB.GetOrCreateUser: the lookup's own error is not modelled. Its `fails` flag is the insert throwing (lib/database.js:25), which happens only when the lookup did not find exactly one row; a throwing insert adds nothing. In lib/database.js:9-17 the lookup's error is dropped, so a lookup that errors for any other reason is treated as "no such user", and the insert runs even when the phone already has its row. If `phone_number` has no unique constraint, that adds a second row for the phone. From then on every `.single()` lookup for it errors, and every later message adds another row. If it has one, the insert throws and the message gets the apology. Neither path is modelled. `WellFormed`'s one-user-per-identity conjunct rests on this omission, and so do `HandlerProperties.HandleKeeps` and the lemmas that find a known user (`Database.KnownUserFound`, `Scenario.KnownStep`).
