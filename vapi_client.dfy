/**
 * The voice-call client: the interviewer's system prompt built from a story
 * request, the assistant configuration, and the result shapes of placing a
 * call and of fetching its recording. The HTTP requests themselves are an
 * injected service.
 */
module VapiClient {
  import opened Wrappers
  import opened JsText
  import CS = ConversationStates
  import Database

  const WarmStyle := "You are a warm, friendly interviewer having a heartfelt conversation."
  const ProfessionalStyle := "You are a professional oral historian conducting an interview."
  const CuriousStyle := "You are like a curious grandchild, eager to learn family stories."

  /** `stylePrompts[ai_style]`, "undefined" for any other value. */
  function StyleSentence(aiStyle: Option<string>): (r: string)
    ensures aiStyle == Some("warm") ==> r == WarmStyle
    ensures aiStyle == Some("professional") ==> r == ProfessionalStyle
    ensures aiStyle == Some("curious") ==> r == CuriousStyle
    ensures aiStyle !in {Some("warm"), Some("professional"), Some("curious")} ==> r == "undefined"
  {
    if aiStyle == Some("warm") then WarmStyle
    else if aiStyle == Some("professional") then ProfessionalStyle
    else if aiStyle == Some("curious") then CuriousStyle
    else "undefined"
  }

  /** Question `i` (from 0) as its numbered line. */
  function QuestionLine(questions: seq<string>, i: nat): string
    requires i < |questions|
  {
    NatToString(i + 1) + ". " + questions[i]
  }

  function QuestionLines(questions: seq<string>): (r: seq<string>)
    ensures |r| == |questions|
    ensures forall i :: 0 <= i < |questions| ==> r[i] == QuestionLine(questions, i)
  {
    seq(|questions|, i requires 0 <= i < |questions| => QuestionLine(questions, i))
  }

  /** Empty without topics to avoid, otherwise the topics joined by ", ". */
  function AvoidSection(avoidTopics: seq<string>): string {
    if |avoidTopics| > 0 then "\n\nTopics to avoid: " + Join(avoidTopics, ", ") else ""
  }

  function IntroTarget(relationship: Option<string>): (r: string)
    ensures r == "grandchild/child" || r == "family member"
  {
    if relationship == Some("grandmother") || relationship == Some("mother") then "grandchild/child" else "family member"
  }

  /** Everything between the style sentence and the questions. */
  function PromptHead(form: CS.FormData): string {
    var st := form.storyteller;
    "\n    \n" +
    "You're speaking with " + ShowUndefined(st.name) + ", who is the caller's " + ShowUndefined(st.relationship) + ".\n\n" +
    "Background: " + ShowUndefined(st.background) + "\n" +
    "Personality: " + ShowUndefined(st.personality) + "\n\n" +
    "Your goal is to have a natural conversation exploring these topics:\n"
  }

  const Guidelines := "\n\nGuidelines:" + "\n- Be conversational " + "and build rapport" +
                      "\n- Ask follow-up questions " + "to get deeper stories" +
                      "\n- Show genuine interest " + "and empathy" +
                      "\n- Keep the conversation " + "flowing naturally" +
                      "\n- Aim for 10-20 minutes " + "of conversation" +
                      "\n- Thank them at the end"

  function Closing(relationship: Option<string>): string {
    "\n\nStart by introducing yourself warmly and explaining you're calling on behalf of their " + IntroTarget(relationship) + "."
  }

  /** `buildAssistantPrompt`: the template filled from the request's form. */
  function BuildAssistantPrompt(req: Database.StoryRequest): string {
    var form := req.formData;
    StyleSentence(form.aiStyle) + PromptHead(form) + Join(QuestionLines(form.questions), "\n") + Guidelines +
    AvoidSection(form.avoidTopics) + Closing(form.storyteller.relationship)
  }

  /** The prompt opens with the sentence of the chosen interviewing style. */
  lemma PromptStartsWithStyle(req: Database.StoryRequest)
    ensures var s := StyleSentence(req.formData.aiStyle);
      |s| <= |BuildAssistantPrompt(req)| && BuildAssistantPrompt(req)[..|s|] == s
  {
    var form := req.formData;
    var s := StyleSentence(form.aiStyle);
    var a1 := s + PromptHead(form);
    var a2 := a1 + Join(QuestionLines(form.questions), "\n");
    var a3 := a2 + Guidelines;
    var a4 := a3 + AvoidSection(form.avoidTopics);
    var a5 := a4 + Closing(form.storyteller.relationship);
    PrefixOfAppend(s, PromptHead(form), |s|);
    PrefixOfAppend(a1, Join(QuestionLines(form.questions), "\n"), |s|);
    PrefixOfAppend(a2, Guidelines, |s|);
    PrefixOfAppend(a3, AvoidSection(form.avoidTopics), |s|);
    PrefixOfAppend(a4, Closing(form.storyteller.relationship), |s|);
    assert s[..|s|] == s;
  }

  /** Every question appears in the prompt as its numbered line. */
  lemma PromptListsQuestions(req: Database.StoryRequest, i: nat)
    requires i < |req.formData.questions|
    ensures Contains(BuildAssistantPrompt(req), QuestionLine(req.formData.questions, i))
  {
    var form := req.formData;
    var lines := QuestionLines(form.questions);
    var front := StyleSentence(form.aiStyle) + PromptHead(form);
    var a2 := front + Join(lines, "\n");
    var a3 := a2 + Guidelines;
    var a4 := a3 + AvoidSection(form.avoidTopics);
    JoinContains(lines, "\n", i);
    ContainsAfter(front, Join(lines, "\n"), lines[i]);
    ContainsBefore(a2, Guidelines, lines[i]);
    ContainsBefore(a3, AvoidSection(form.avoidTopics), lines[i]);
    ContainsBefore(a4, Closing(form.storyteller.relationship), lines[i]);
  }

  /** The avoid section is empty exactly when there is nothing to avoid, and
      otherwise names every topic. */
  lemma AvoidSectionShape(avoidTopics: seq<string>)
    ensures AvoidSection(avoidTopics) == [] <==> avoidTopics == []
    ensures avoidTopics != [] ==>
      |AvoidSection(avoidTopics)| >= 19 && AvoidSection(avoidTopics)[..19] == "\n\nTopics to avoid: " &&
      forall k :: 0 <= k < |avoidTopics| ==> Contains(AvoidSection(avoidTopics), avoidTopics[k])
  {
    if avoidTopics != [] {
      assert |AvoidSection(avoidTopics)| >= 19;
      forall k | 0 <= k < |avoidTopics| ensures Contains(AvoidSection(avoidTopics), avoidTopics[k]) {
        JoinContains(avoidTopics, ", ", k);
        ContainsAfter("\n\nTopics to avoid: ", Join(avoidTopics, ", "), avoidTopics[k]);
      }
    }
  }

  /** The prompt closes by naming the caller as grandchild or child exactly
      for a grandmother or mother, and as a family member otherwise. */
  lemma PromptClosing(req: Database.StoryRequest)
    ensures var p := BuildAssistantPrompt(req);
      var c := Closing(req.formData.storyteller.relationship);
      |c| <= |p| && p[|p| - |c|..] == c
    ensures (IntroTarget(req.formData.storyteller.relationship) == "grandchild/child") <==>
      req.formData.storyteller.relationship in {Some("grandmother"), Some("mother")}
  {
    var form := req.formData;
    var front := StyleSentence(form.aiStyle) + PromptHead(form) + Join(QuestionLines(form.questions), "\n") + Guidelines + AvoidSection(form.avoidTopics);
    SuffixOfAppend(front, Closing(form.storyteller.relationship));
    assert "grandchild/child"[0] != "family member"[0];
  }

  // ---------------------------------------------------------------------
  // The assistant and the call

  datatype Assistant = Assistant(
    name: string,
    systemPrompt: string,
    firstMessage: string,
    recordingEnabled: bool,
    endCallPhrases: seq<string>,
    maxDurationSeconds: nat)

  const FirstMessageRest := "? I'm calling on behalf " + "of your family member " + "who wanted to record " + "some of your stories. " +
                            "They thought it would be " + "wonderful to preserve " + "your memories. " +
                            "Do you have a few minutes " + "to chat?"

  /** The assistant configuration sent for a story request; the request's
      name column renders "null" when it is empty. */
  function AssistantFor(req: Database.StoryRequest): (r: Assistant)
    ensures r.systemPrompt == BuildAssistantPrompt(req)
    ensures r.maxDurationSeconds == 30 * 60 && r.recordingEnabled
  {
    Assistant(
      "Story Collector - " + ShowNull(req.storytellerName),
      BuildAssistantPrompt(req),
      "Hello! Is this " + ShowUndefined(req.formData.storyteller.name) + FirstMessageRest,
      true,
      ["goodbye", "bye", "talk to you later", "have a good day"],
      1800)
  }

  /** What an API request yields: the created object's id, or the error
      message it was rejected with. */
  datatype ApiResult = Created(id: Option<string>) | Rejected(message: string)

  /** The remote service: create an assistant; dial a number with one. */
  datatype VapiService = VapiService(
    createAssistant: Assistant -> ApiResult,
    createPhoneCall: (Option<string>, Option<string>) -> ApiResult)

  datatype CallResult = CallResult(success: bool, assistantId: Option<string>, callId: Option<string>, error: Option<string>)

  /** `createCallForStoryRequest`: never fails outright; a rejected request
      becomes an unsuccessful result carrying the message. */
  function CreateCallForStoryRequest(req: Database.StoryRequest, vapi: VapiService): (r: CallResult)
    ensures r.success <==> (vapi.createAssistant(AssistantFor(req)).Created? &&
      vapi.createPhoneCall(vapi.createAssistant(AssistantFor(req)).id, req.storytellerPhone).Created?)
    ensures r.success ==> r == CallResult(true, vapi.createAssistant(AssistantFor(req)).id,
      vapi.createPhoneCall(vapi.createAssistant(AssistantFor(req)).id, req.storytellerPhone).id, None)
    ensures !r.success ==> r.assistantId.None? && r.callId.None? && r.error.Some?
  {
    match vapi.createAssistant(AssistantFor(req))
    case Rejected(m) => CallResult(false, None, None, Some(m))
    case Created(assistantId) =>
      match vapi.createPhoneCall(assistantId, req.storytellerPhone)
      case Rejected(m) => CallResult(false, None, None, Some(m))
      case Created(callId) => CallResult(true, assistantId, callId, None)
  }

  /** A call as the service reports it. */
  datatype Call = Call(id: Option<string>, status: Option<string>, recordingUrl: Option<string>, transcript: Option<string>, duration: Option<int>)

  datatype Recording = Recording(recordingUrl: Option<string>, transcript: Option<string>, duration: Option<int>)

  /** `getRecording`: the three recording fields of the fetched call. */
  function GetRecording(fetched: Call): (r: Recording)
    ensures r.recordingUrl == fetched.recordingUrl && r.transcript == fetched.transcript && r.duration == fetched.duration
  {
    Recording(fetched.recordingUrl, fetched.transcript, fetched.duration)
  }
}
