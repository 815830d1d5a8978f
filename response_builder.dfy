/** Response building: the sentence the assistant says back for an action's result. */
module ResponseBuilder {
  import opened Wrappers
  import opened Text
  import opened Schemas

  const ErrorDefault: string := "I encountered an error. Please try again."
  const MoreInfoDefault: string := "I need more information."
  const AlarmSetDefault: string := "Your alarm has been set."
  const AlarmFailed: string := "I couldn't set the alarm. Please try again."
  const AlarmDeletedDefault: string := "Alarm deleted."
  const NoFlightsDefault: string := "I couldn't find any flights."
  const Processed: string := "I've processed your request."
  /** How many offers the language model is shown. */
  const ListedForLlm: nat := 3

  /** `result.get("message", default)`. */
  function MessageOr(r: ActionResult, default: string): (s: string)
    ensures r.message.Some? ==> s == r.message.value
    ensures r.message.None? ==> s == default
  {
    r.message.GetOr(default)
  }

  /** `_build_error_response`. */
  function ErrorReply(r: ActionResult): string {
    MessageOr(r, ErrorDefault)
  }

  /** `_build_alarm_response`: the handler's message on success, a fixed apology otherwise. */
  function AlarmReply(r: ActionResult): string {
    if r.status == Success then MessageOr(r, AlarmSetDefault) else AlarmFailed
  }

  /** `_build_delete_alarm_response`. */
  function DeleteAlarmReply(r: ActionResult): string {
    MessageOr(r, AlarmDeletedDefault)
  }

  /** `str(x)` of a field the result may not carry: "None" when it is absent. */
  function FieldOrNone(r: ActionResult, field: FlightsFoundField): string {
    if !r.payload.FlightsFound? then "None"
    else match field
      case SourceField => r.payload.source
      case DestinationField => r.payload.destination
      case DateField => r.payload.date
  }

  datatype FlightsFoundField = SourceField | DestinationField | DateField

  /** `result.get("flights", [])`. */
  function OffersOf(r: ActionResult): seq<FlightResult> {
    if r.payload.FlightsFound? then r.payload.flights else []
  }

  /** The stop count as the listing writes it. */
  function StopsText(f: FlightResult): string {
    if f.direct then "non-stop" else NatToString(f.stops) + " stop(s)"
  }

  /** One numbered line of the listing the language model is shown. */
  function FlightLine(n: nat, f: FlightResult): string {
    NatToString(n) + ". " + f.airline + " " + f.flightNumber + ": "
      + "Departs " + f.departureTime + ", "
      + "arrives " + f.arrivalTime + ", "
      + "₹" + GroupThousands(f.price) + ", "
      + f.duration + ", "
      + StopsText(f)
  }

  /** The lines of `_format_flights_for_llm`: the first three offers, numbered from 1. */
  function FlightLines(flights: seq<FlightResult>): (lines: seq<string>)
    ensures |lines| == if |flights| < ListedForLlm then |flights| else ListedForLlm
    ensures forall k :: 0 <= k < |lines| ==> lines[k] == FlightLine(k + 1, flights[k])
  {
    var n := if |flights| < ListedForLlm then |flights| else ListedForLlm;
    seq(n, k requires 0 <= k < n => FlightLine(k + 1, flights[k]))
  }

  /** `_format_flights_for_llm`, line by line. */
  method FormatFlightsForLlm(flights: seq<FlightResult>) returns (text: string)
    ensures text == Join(FlightLines(flights), "\n")
  {
    var lines: seq<string> := [];
    var i := 0;
    var limit := if |flights| < ListedForLlm then |flights| else ListedForLlm;
    while i < limit
      invariant 0 <= i <= limit
      invariant lines == FlightLines(flights)[..i]
    {
      lines := lines + [FlightLine(i + 1, flights[i])];
      i := i + 1;
    }
    assert lines == FlightLines(flights);
    text := Join(lines, "\n");
  }

  /** The request the language model is asked to phrase the offers from. */
  function FlightPrompt(source: string, destination: string, date: string, flights: seq<FlightResult>): string {
    "You are Jarvis, an AI assistant. Present these flight options in a natural, conversational way.\n\n"
      + "Flight search: " + source + " to " + destination + " on " + date + "\n\n"
      + "Available flights:\n" + Join(FlightLines(flights), "\n") + "\n\n"
      + "Create a brief, helpful response (2-3 sentences) highlighting the best option."
  }

  /** The template used when the language model gives no answer. */
  function FallbackSummary(flights: seq<FlightResult>): string
    requires flights != []
  {
    var best := flights[0];
    "I found " + NatToString(|flights|) + " flights. The best option is " + best.airline + " at "
      + best.departureTime + " for ₹" + GroupThousands(best.price) + ", " + best.duration + " duration."
  }

  /** The sentence for a search with no offers. */
  function NoFlightsReply(r: ActionResult): string {
    "I couldn't find any flights from " + FieldOrNone(r, SourceField) + " to " + FieldOrNone(r, DestinationField)
      + " on " + FieldOrNone(r, DateField) + "."
  }

  /** `_build_flight_response`. `complete` is the language model: the prompt's answer, or
      None when the call fails or answers nothing. */
  function FlightReply(r: ActionResult, complete: string -> Option<string>): string {
    if r.status != Success then MessageOr(r, NoFlightsDefault)
    else
      var flights := OffersOf(r);
      if flights == [] then NoFlightsReply(r)
      else match complete(FlightPrompt(FieldOrNone(r, SourceField), FieldOrNone(r, DestinationField),
                                       FieldOrNone(r, DateField), flights))
        case Some(answer) => Strip(answer)
        case None => FallbackSummary(flights)
  }

  /** `build_response`: errors and missing slots first, whatever the intent; then per intent. */
  function BuildResponse(intent: Intent, r: ActionResult, complete: string -> Option<string>): string {
    if r.status == Error then ErrorReply(r)
    else if r.status == MissingSlots then MessageOr(r, MoreInfoDefault)
    else match intent.intent
      case SetAlarm => AlarmReply(r)
      case DeleteAlarm => DeleteAlarmReply(r)
      case SearchFlights => FlightReply(r, complete)
      case _ => Processed
  }

  /** `s` ends with `p`. */
  predicate EndsWith(s: string, p: string) {
    |p| <= |s| && s[|s| - |p|..] == p
  }

  /** A listing line says "non-stop" at its end exactly for a direct flight, and starts with
      its number and the airline. */
  lemma FlightLineShape(n: nat, f: FlightResult)
    ensures EndsWith(FlightLine(n, f), "non-stop") <==> f.direct
    ensures OccursAt(FlightLine(n, f), NatToString(n) + ". " + f.airline, 0)
  {
    var head := NatToString(n) + ". " + f.airline;
    var body := head + " " + f.flightNumber + ": " + "Departs " + f.departureTime + ", "
      + "arrives " + f.arrivalTime + ", " + "₹" + GroupThousands(f.price) + ", " + f.duration + ", ";
    var line := FlightLine(n, f);
    assert line == body + StopsText(f);
    assert line[|body|..] == StopsText(f);
    if f.direct {
      assert line[|line| - 8..] == "non-stop";
    } else {
      assert line[|line| - 1] == ')';
    }
    PrefixOccurs(head, body[|head|..]);
    assert body == head + body[|head|..];
    PrefixExtend(body, StopsText(f), head);
  }

  lemma OpeningSplits()
    ensures " flights. The best option is " == " flights" + ". The best option is "
  {
  }

  /** The fallback opens with the number of offers found. */
  lemma FallbackOpensWithCount(flights: seq<FlightResult>)
    requires flights != []
    ensures OccursAt(FallbackSummary(flights), "I found " + NatToString(|flights|) + " flights", 0)
  {
    var b := flights[0];
    var head := "I found " + NatToString(|flights|) + " flights";
    var s0 := "I found " + NatToString(|flights|) + " flights. The best option is ";
    OpeningSplits();
    AppendAssoc("I found " + NatToString(|flights|), " flights", ". The best option is ");
    PrefixOccurs(head, ". The best option is ");
    var s1 := s0 + b.airline;
    PrefixExtend(s0, b.airline, head);
    var s2 := s1 + " at ";
    PrefixExtend(s1, " at ", head);
    var s3 := s2 + b.departureTime;
    PrefixExtend(s2, b.departureTime, head);
    var s4 := s3 + " for ₹";
    PrefixExtend(s3, " for ₹", head);
    var s5 := s4 + GroupThousands(b.price);
    PrefixExtend(s4, GroupThousands(b.price), head);
    var s6 := s5 + ", ";
    PrefixExtend(s5, ", ", head);
    var s7 := s6 + b.duration;
    PrefixExtend(s6, b.duration, head);
    PrefixExtend(s7, " duration.", head);
    assert FallbackSummary(flights) == s7 + " duration.";
  }

  /** The fallback opens with the number of offers and names the best offer's airline,
      departure time, price and duration. */
  lemma FallbackNamesBestOffer(flights: seq<FlightResult>)
    requires flights != []
    ensures OccursAt(FallbackSummary(flights), "I found " + NatToString(|flights|) + " flights", 0)
    ensures Contains(FallbackSummary(flights), flights[0].airline)
    ensures Contains(FallbackSummary(flights), flights[0].departureTime)
    ensures Contains(FallbackSummary(flights), GroupThousands(flights[0].price))
    ensures Contains(FallbackSummary(flights), flights[0].duration)
  {
    var b := flights[0];
    var price := GroupThousands(b.price);
    var s0 := "I found " + NatToString(|flights|) + " flights. The best option is ";
    var s1 := s0 + b.airline;
    var s2 := s1 + " at ";
    var s3 := s2 + b.departureTime;
    var s4 := s3 + " for ₹";
    var s5 := s4 + price;
    var s6 := s5 + ", ";
    var s7 := s6 + b.duration;
    var s8 := s7 + " duration.";
    assert FallbackSummary(flights) == s8;
    ContainsSelf(b.airline);
    ContainsExtend(b.airline, s0, b.airline);
    ContainsExtend(s1, " at ", b.airline);
    ContainsExtend(s2, b.departureTime, b.airline);
    ContainsSelf(b.departureTime);
    ContainsExtend(b.departureTime, s2, b.departureTime);
    ContainsExtend(s3, " for ₹", b.airline);
    ContainsExtend(s3, " for ₹", b.departureTime);
    ContainsExtend(s4, price, b.airline);
    ContainsExtend(s4, price, b.departureTime);
    ContainsSelf(price);
    ContainsExtend(price, s4, price);
    ContainsExtend(s5, ", ", b.airline);
    ContainsExtend(s5, ", ", b.departureTime);
    ContainsExtend(s5, ", ", price);
    ContainsExtend(s6, b.duration, b.airline);
    ContainsExtend(s6, b.duration, b.departureTime);
    ContainsExtend(s6, b.duration, price);
    ContainsSelf(b.duration);
    ContainsExtend(b.duration, s6, b.duration);
    ContainsExtend(s7, " duration.", b.airline);
    ContainsExtend(s7, " duration.", b.departureTime);
    ContainsExtend(s7, " duration.", price);
    ContainsExtend(s7, " duration.", b.duration);
    FallbackOpensWithCount(flights);
  }

  /** The language model is consulted only for a successful flight search with offers: on
      every other path two different models give the same sentence. */
  lemma LlmOnlyForFoundFlights(intent: Intent, r: ActionResult, c1: string -> Option<string>, c2: string -> Option<string>)
    requires !(intent.intent == SearchFlights && r.status == Success && OffersOf(r) != [])
    ensures BuildResponse(intent, r, c1) == BuildResponse(intent, r, c2)
  {
  }

  /** The sentence by status and intent: an error or a request for slots passes the
      handler's message through whatever the intent; intents without a builder of their own
      get one fixed sentence, so the handler's own message for them is never said. */
  lemma BuildResponseCases(intent: Intent, r: ActionResult, complete: string -> Option<string>)
    ensures r.status == Error && r.message.Some? ==> BuildResponse(intent, r, complete) == r.message.value
    ensures r.status == MissingSlots && r.message.Some? ==> BuildResponse(intent, r, complete) == r.message.value
    ensures r.status !in {Error, MissingSlots} && intent.intent !in {SetAlarm, DeleteAlarm, SearchFlights} ==>
      BuildResponse(intent, r, complete) == Processed
    ensures r.status !in {Error, MissingSlots} && intent.intent == SetAlarm ==>
      BuildResponse(intent, r, complete) == if r.status == Success then MessageOr(r, AlarmSetDefault) else AlarmFailed
  {
  }

  /** A model answer is passed on with its surrounding whitespace removed. */
  lemma LlmAnswerStripped(intent: Intent, r: ActionResult, complete: string -> Option<string>)
    requires intent.intent == SearchFlights && r.status == Success && r.payload.FlightsFound? && r.payload.flights != []
    requires complete(FlightPrompt(r.payload.source, r.payload.destination, r.payload.date, r.payload.flights)).Some?
    ensures var s := BuildResponse(intent, r, complete); s == [] || (!IsSpace(s[0]) && !IsSpace(s[|s| - 1]))
  {
  }

  /** Without a model answer, a successful search with offers is summarised from its first
      (cheapest) offer. */
  lemma NoAnswerFallsBack(intent: Intent, r: ActionResult, complete: string -> Option<string>)
    requires intent.intent == SearchFlights && r.status == Success && r.payload.FlightsFound? && r.payload.flights != []
    requires complete(FlightPrompt(r.payload.source, r.payload.destination, r.payload.date, r.payload.flights)).None?
    ensures BuildResponse(intent, r, complete) == FallbackSummary(r.payload.flights)
    ensures Contains(BuildResponse(intent, r, complete), r.payload.flights[0].airline)
  {
    FallbackNamesBestOffer(r.payload.flights);
  }
}
