/** The records and enums of the request/response schemas, plus the uniform result
    every action handler returns to the router. */
module Schemas {
  import opened Wrappers

  /** The seven supported intents. */
  datatype IntentType = SetAlarm | DeleteAlarm | SearchFlights | BookFlight | GetWeather | SendMessage | Unknown

  /** The string value each intent member carries. */
  function IntentValue(t: IntentType): string {
    match t
    case SetAlarm => "set_alarm"
    case DeleteAlarm => "delete_alarm"
    case SearchFlights => "search_flights"
    case BookFlight => "book_flight"
    case GetWeather => "get_weather"
    case SendMessage => "send_message"
    case Unknown => "unknown"
  }

  /** `IntentType(s)`: the member whose value is `s`, or `None` where Python raises `ValueError`. */
  function IntentFromValue(s: string): (r: Option<IntentType>)
    ensures r.Some? ==> IntentValue(r.value) == s
  {
    if s == "set_alarm" then Some(SetAlarm)
    else if s == "delete_alarm" then Some(DeleteAlarm)
    else if s == "search_flights" then Some(SearchFlights)
    else if s == "book_flight" then Some(BookFlight)
    else if s == "get_weather" then Some(GetWeather)
    else if s == "send_message" then Some(SendMessage)
    else if s == "unknown" then Some(Unknown)
    else None
  }

  /** Every member is recovered from its value, so the values are pairwise distinct. */
  lemma IntentValueRoundTrip(t: IntentType)
    ensures IntentFromValue(IntentValue(t)) == Some(t)
  {
  }

  const AllIntentTypes: seq<IntentType> :=
    [SetAlarm, DeleteAlarm, SearchFlights, BookFlight, GetWeather, SendMessage, Unknown]

  /** The enum has exactly seven members with seven distinct values. */
  lemma {:induction false} SevenIntentTypes(t: IntentType)
    ensures |AllIntentTypes| == 7 && t in AllIntentTypes
    ensures forall i, j :: 0 <= i < j < |AllIntentTypes| ==>
      IntentValue(AllIntentTypes[i]) != IntentValue(AllIntentTypes[j])
  {
  }

  /** A JSON-like value as stored in the preference documents. */
  datatype Value = VStr(s: string) | VInt(i: int) | VNull

  /** Python truthiness of a value (`if v:`). */
  predicate Truthy(v: Value) {
    match v
    case VStr(s) => s != ""
    case VInt(i) => i != 0
    case VNull => false
  }

  /** A parsed intent. Slots are the extracted parameters, keyed by name. */
  datatype Intent = Intent(intent: IntentType, slots: map<string, string>, confidence: real, originalText: string)

  datatype UserPreferences = UserPreferences(
    userId: string,
    timezone: string,
    alarmTone: string,
    usualWakeup: Option<string>,
    airlinePref: Option<string>,
    maxPrice: Option<int>,
    seatPref: Option<string>,
    flightType: string)

  /** `UserPreferences(user_id=u)` with every other field at its default. */
  function DefaultUserPreferences(userId: string): (p: UserPreferences)
    ensures p.userId == userId && p.timezone == "UTC" && p.alarmTone == "default" && p.flightType == "any"
    ensures p.usualWakeup == None && p.airlinePref == None && p.maxPrice == None && p.seatPref == None
  {
    UserPreferences(userId, "UTC", "default", None, None, None, None, "any")
  }

  /** A conversation request: both inputs are optional. */
  datatype ConversationRequest = ConversationRequest(userId: string, audio: Option<string>, text: Option<string>)

  /** What a response carries in `data`: the action's result, or `{"error": ...}`. */
  datatype ResponseData = ActionData(result: ActionResult) | ErrorData(error: string)

  datatype ConversationResponse = ConversationResponse(
    success: bool,
    textResponse: string,
    audioResponse: Option<string>,
    intent: string,
    confidence: real,
    data: Option<ResponseData>)

  /** A flight offer. Prices are whole rupees in this model. */
  datatype FlightResult = FlightResult(
    airline: string,
    flightNumber: string,
    departureTime: string,
    arrivalTime: string,
    duration: string,
    price: nat,
    currency: string,
    direct: bool,
    stops: nat)

  /** The `status` strings the action handlers return. */
  datatype Status = Success | Error | MissingSlots | NotFound | UnknownIntent | NotImplemented

  function StatusValue(s: Status): string {
    match s
    case Success => "success"
    case Error => "error"
    case MissingSlots => "missing_slots"
    case NotFound => "not_found"
    case UnknownIntent => "unknown_intent"
    case NotImplemented => "not_implemented"
  }

  /** The extra keys a handler's result dictionary carries besides status and message. */
  datatype Payload =
    | NoPayload
    | AlarmSet(alarmId: string, alarmTime: int)
    | FlightsFound(flights: seq<FlightResult>, count: nat, source: string, destination: string, date: string)

  /** A handler's result dictionary; `message` is absent when the handler sets none. */
  datatype ActionResult = ActionResult(status: Status, message: Option<string>, payload: Payload)

  function Reply(status: Status, message: string): ActionResult {
    ActionResult(status, Some(message), NoPayload)
  }
}
