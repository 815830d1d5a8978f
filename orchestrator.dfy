/** The conversation pipeline: input text, intent, context, stored turn, action, reply, speech. */
module Orchestrator {
  import opened Wrappers
  import opened Schemas
  import opened IntentParser
  import opened Alarms
  import opened Memory
  import opened CommandRouter
  import opened ResponseBuilder

  const Apology: string := "I apologize, but I encountered an error processing your request. Please try again."
  const NoInputMessage: string := "Either 'text' or 'audio' must be provided"
  const TranscriptionFailed: string := "Failed to transcribe audio"

  /** The outside services the pipeline consults, each as the answer it gives.
      `transcribe` is speech-to-text (None when it fails), `speak` text-to-speech (which
      answers "" rather than fail), `classify` and `complete` the language model, `lib` the
      clock and zone parser, `parseDate` the date parser. */
  datatype Tools = Tools(
    transcribe: string -> Option<string>,
    speak: string -> string,
    rec: Recognisers,
    classify: string -> LlmReply,
    complete: string -> Option<string>,
    lib: TimeLib,
    parseDate: string -> Option<string>)

  /** `_get_text_input`: non-empty text wins; otherwise non-empty audio is transcribed;
      otherwise the request is refused. The error is the raised exception's text. */
  function GetTextInput(request: ConversationRequest, transcribe: string -> Option<string>): (r: Result<string, string>)
    ensures request.text.Some? && request.text.value != "" ==> r == Ok(request.text.value)
    ensures r.Err? ==> r.error in {NoInputMessage, TranscriptionFailed}
    ensures r.Err? && r.error == NoInputMessage <==>
      (request.text.None? || request.text.value == "") && (request.audio.None? || request.audio.value == "")
  {
    if request.text.Some? && request.text.value != "" then Ok(request.text.value)
    else if request.audio.Some? && request.audio.value != "" then
      match transcribe(request.audio.value)
      case Some(text) => Ok(text)
      case None => Err(TranscriptionFailed)
    else Err(NoInputMessage)
  }

  /** The response sent when the pipeline raises. */
  function FailureResponse(error: string, speak: string -> string): (r: ConversationResponse)
    ensures !r.success && r.intent == "error" && r.confidence == 0.0
    ensures r.textResponse == Apology && r.data == Some(ErrorData(error))
  {
    ConversationResponse(false, Apology, Some(speak(Apology)), "error", 0.0, Some(ErrorData(error)))
  }

  /** The response for an action that ran: the reply's text and speech, the intent's value,
      its confidence and the action's result. */
  function SuccessResponse(intent: Intent, action: ActionResult, tools: Tools): (r: ConversationResponse)
    ensures r.success && r.intent == IntentValue(intent.intent) && r.confidence == intent.confidence
    ensures r.data == Some(ActionData(action))
  {
    var reply := BuildResponse(intent, action, tools.complete);
    ConversationResponse(true, reply, Some(tools.speak(reply)), IntentValue(intent.intent), intent.confidence,
                         Some(ActionData(action)))
  }

  /** What a request the pipeline understands says back, in terms of the intent alone:
      weather and the three unsupported intents always get the one fixed sentence, whatever
      the router's own message; an alarm without a time asks for it. */
  lemma UnhandledIntentsSayProcessed(t: AlarmTables, storeUp: bool, schedulerUp: bool, intent: Intent, userId: string,
                                     ctx: UserContext, tools: Tools, now: int, stamp: int)
    ensures var action := RouteEffect(t, storeUp, schedulerUp, intent, userId, ctx, tools.lib, tools.parseDate, now, stamp).1;
      && (intent.intent in {GetWeather, BookFlight, SendMessage, Unknown} ==>
            BuildResponse(intent, action, tools.complete) == Processed)
      && (intent.intent == SetAlarm && Missing(intent.slots, "time") ==>
            BuildResponse(intent, action, tools.complete) == MissingTimeMessage)
  {
    RouteDispatch(t, storeUp, schedulerUp, intent, userId, ctx, tools.lib, tools.parseDate, now, stamp);
  }

  class Orchestrator {
    const memory: MemoryService
    const router: CommandRouter

    ghost predicate Valid()
      reads this, router, router.reminders
    {
      router.reminders.Valid()
    }

    constructor (memory: MemoryService, router: CommandRouter)
      requires router.reminders.Valid()
      ensures Valid() && this.memory == memory && this.router == router
    {
      this.memory := memory;
      this.router := router;
    }

    /** `process_conversation`. A request without usable input changes nothing and gets the
        apology. Otherwise the text is parsed; the context is read (creating default
        preferences if needed) before the turn is stored, so it never lists the turn being
        answered; then the action runs and its reply is built and spoken. `clock` is the
        current minute for alarm times and `stamp` the timestamp stored with documents. */
    method ProcessConversation(request: ConversationRequest, tools: Tools, clock: int, stamp: int)
      returns (response: ConversationResponse, ghost intent: Intent, ghost ctx: UserContext, ghost action: ActionResult)
      requires Valid()
      modifies memory, router.reminders
      ensures Valid()
      ensures GetTextInput(request, tools.transcribe).Err? ==>
        && response == FailureResponse(GetTextInput(request, tools.transcribe).error, tools.speak)
        && memory.prefDocs == old(memory.prefDocs) && memory.conversations == old(memory.conversations)
        && router.reminders.Tables() == old(router.reminders.Tables())
      ensures GetTextInput(request, tools.transcribe).Ok? ==>
        var text := GetTextInput(request, tools.transcribe).value;
        && intent == Understood(text, tools.rec, tools.classify)
        && (memory.prefDocs, ctx) ==
             ContextEffect(old(memory.prefDocs), old(memory.conversations), memory.storeUp, request.userId, intent.intent, stamp)
        && memory.conversations == (if memory.storeUp
                                    then old(memory.conversations) + [Turn(request.userId, text, IntentValue(intent.intent), None, stamp)]
                                    else old(memory.conversations))
        && (router.reminders.Tables(), action) ==
             RouteEffect(old(router.reminders.Tables()), router.reminders.storeUp, router.reminders.schedulerUp,
                         intent, request.userId, ctx, tools.lib, tools.parseDate, clock, stamp)
        && response == SuccessResponse(intent, action, tools)
    {
      var input := GetTextInput(request, tools.transcribe);
      if input.Err? {
        response := FailureResponse(input.error, tools.speak);
        intent, ctx, action := Intent(Unknown, map[], 0.0, ""), UserContext(map[], [], None), Reply(Error, input.error);
        return;
      }
      var text := input.value;
      var parsed := Parse(text, tools.rec, tools.classify);
      intent := parsed;
      var context := memory.GetUserContext(request.userId, parsed.intent, stamp);
      ctx := context;
      memory.StoreConversation(request.userId, text, IntentValue(parsed.intent), stamp);
      var result := router.Route(parsed, request.userId, context, tools.lib, tools.parseDate, clock, stamp);
      action := result;
      var reply := BuildResponse(parsed, result, tools.complete);
      var audio := tools.speak(reply);
      response := ConversationResponse(true, reply, Some(audio), IntentValue(parsed.intent), parsed.confidence,
                                       Some(ActionData(result)));
    }
  }
}
