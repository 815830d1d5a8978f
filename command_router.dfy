/** Command routing: dispatch of a parsed intent to its action, with required-slot checks. */
module CommandRouter {
  import opened Wrappers
  import opened Text
  import opened Schemas
  import opened Alarms
  import opened Flights
  import opened Memory

  const MissingTimeMessage: string := "I need a time to set the alarm. When would you like to wake up?"
  const UnknownIntentMessage: string := "I'm not sure how to help with that yet."
  const WeatherMessage: string := "Weather service coming soon!"
  const MissingPrefix: string := "I need the following information: "

  /** `not slots.get(k)`: the slot is absent or empty. */
  predicate Missing(slots: map<string, string>, k: string) {
    k !in slots || slots[k] == ""
  }

  /** Where a missing-field name stands in the fixed order of the message. */
  function FieldRank(field: string): int {
    if field == "source city" then 0 else if field == "destination city" then 1 else 2
  }

  /** The flight fields that are missing, each named once, in the order source, destination, date. */
  function MissingFlightFields(slots: map<string, string>): (r: seq<string>)
    ensures |r| <= 3
    ensures "source city" in r <==> Missing(slots, "source")
    ensures "destination city" in r <==> Missing(slots, "destination")
    ensures "travel date" in r <==> Missing(slots, "date")
    ensures forall f :: f in r ==> f in {"source city", "destination city", "travel date"}
    ensures forall i, j :: 0 <= i < j < |r| ==> FieldRank(r[i]) < FieldRank(r[j])
    ensures r == [] <==> !Missing(slots, "source") && !Missing(slots, "destination") && !Missing(slots, "date")
  {
    (if Missing(slots, "source") then ["source city"] else [])
    + (if Missing(slots, "destination") then ["destination city"] else [])
    + (if Missing(slots, "date") then ["travel date"] else [])
  }

  /** The `missing` list of `_handle_search_flights`, built by appends. */
  method CollectMissing(slots: map<string, string>) returns (missing: seq<string>)
    ensures missing == MissingFlightFields(slots)
  {
    missing := [];
    if Missing(slots, "source") {
      missing := missing + ["source city"];
    }
    if Missing(slots, "destination") {
      missing := missing + ["destination city"];
    }
    if Missing(slots, "date") {
      missing := missing + ["travel date"];
    }
  }

  /** `slots.get("time_window")`. */
  function SlotOrNone(slots: map<string, string>, k: string): Option<string> {
    if k in slots then Some(slots[k]) else None
  }

  /** The zone an alarm is set in: the user's `timezone` preference, "UTC" when absent. */
  function AlarmZone(ctx: UserContext): Value {
    GetOr(ctx.preferences, "timezone", VStr("UTC"))
  }

  /** What `route` does: the alarm tables afterwards and the action's result. */
  function RouteEffect(t: AlarmTables, storeUp: bool, schedulerUp: bool, intent: Intent, userId: string,
                       ctx: UserContext, lib: TimeLib, parseDate: string -> Option<string>, now: int, stamp: int)
    : (AlarmTables, ActionResult)
  {
    var slots := intent.slots;
    match intent.intent
    case SetAlarm =>
      if Missing(slots, "time") then (t, Reply(MissingSlots, MissingTimeMessage))
      else SetAlarmEffect(t, storeUp, schedulerUp, lib, userId, slots["time"], AlarmZone(ctx), false, None, now, stamp)
    case DeleteAlarm => DeleteEffect(t, storeUp, userId)
    case SearchFlights =>
      var missing := MissingFlightFields(slots);
      if missing != [] then (t, Reply(MissingSlots, MissingPrefix + Join(missing, ", ")))
      else (t, SearchOutcome(slots["source"], slots["destination"], slots["date"], SlotOrNone(slots, "time_window"),
                             Some(ctx.intentSpecific.GetOr(map[])), parseDate))
    case GetWeather => (t, Reply(NotImplemented, WeatherMessage))
    case _ => (t, Reply(UnknownIntent, UnknownIntentMessage))
  }

  /** Only the two alarm intents touch the alarm tables; weather is not implemented, the
      three unsupported intents are unknown, and an alarm without a time or a flight search
      without all three fields asks for what is missing without reaching the service. */
  lemma RouteDispatch(t: AlarmTables, storeUp: bool, schedulerUp: bool, intent: Intent, userId: string,
                      ctx: UserContext, lib: TimeLib, parseDate: string -> Option<string>, now: int, stamp: int)
    ensures var (after, r) := RouteEffect(t, storeUp, schedulerUp, intent, userId, ctx, lib, parseDate, now, stamp);
      && (intent.intent !in {SetAlarm, DeleteAlarm} ==> after == t)
      && (intent.intent == GetWeather ==> r == Reply(NotImplemented, WeatherMessage))
      && (intent.intent in {BookFlight, SendMessage, Unknown} ==> r == Reply(UnknownIntent, UnknownIntentMessage))
      && (intent.intent == SetAlarm && Missing(intent.slots, "time") ==>
            after == t && r == Reply(MissingSlots, MissingTimeMessage))
      && (intent.intent == SearchFlights && MissingFlightFields(intent.slots) != [] ==>
            r == Reply(MissingSlots, MissingPrefix + Join(MissingFlightFields(intent.slots), ", ")))
      && (intent.intent == SearchFlights && MissingFlightFields(intent.slots) == [] ==>
            r.status in {Success, Error})
  {
  }

  /** The missing-fields message for slots that hold none of the three flight fields. */
  lemma EmptySlotsMessage()
    ensures Join(MissingFlightFields(map[]), ", ") == "source city" + ", " + "destination city" + ", " + "travel date"
  {
    var fields := ["source city", "destination city", "travel date"];
    assert MissingFlightFields(map[]) == fields;
    assert fields[1..] == ["destination city", "travel date"];
    assert fields[1..][1..] == ["travel date"];
    assert Join(["travel date"], ", ") == "travel date";
    var tail := Join(fields[1..], ", ");
    assert tail == fields[1..][0] + ", " + Join(fields[1..][1..], ", ");
    assert tail == "destination city" + ", " + "travel date";
  }

  /** A flight search with none of its fields asks for all three, in order, in one message. */
  lemma AllFlightFieldsMissing(t: AlarmTables, storeUp: bool, schedulerUp: bool, userId: string, text: string,
                               confidence: real, ctx: UserContext, lib: TimeLib,
                               parseDate: string -> Option<string>, now: int, stamp: int)
    ensures RouteEffect(t, storeUp, schedulerUp, Intent(SearchFlights, map[], confidence, text), userId, ctx,
                        lib, parseDate, now, stamp).1
      == Reply(MissingSlots, MissingPrefix + ("source city" + ", " + "destination city" + ", " + "travel date"))
  {
    EmptySlotsMessage();
    var intent := Intent(SearchFlights, map[], confidence, text);
    assert MissingFlightFields(intent.slots) != [];
  }

  /** An alarm request with a time, from a user with no zone preference, is set in UTC. */
  lemma AlarmZoneDefaultsToUtc(t: AlarmTables, storeUp: bool, schedulerUp: bool, intent: Intent, userId: string,
                               ctx: UserContext, lib: TimeLib, parseDate: string -> Option<string>, now: int, stamp: int)
    requires intent.intent == SetAlarm && !Missing(intent.slots, "time") && "timezone" !in ctx.preferences
    ensures RouteEffect(t, storeUp, schedulerUp, intent, userId, ctx, lib, parseDate, now, stamp)
         == SetAlarmEffect(t, storeUp, schedulerUp, lib, userId, intent.slots["time"], VStr("UTC"), false, None, now, stamp)
  {
  }

  /** A complete flight search uses the intent-specific preferences of the context, and none
      when the context has no such part. */
  lemma FlightsUseIntentSpecific(t: AlarmTables, storeUp: bool, schedulerUp: bool, intent: Intent, userId: string,
                                 ctx: UserContext, lib: TimeLib, parseDate: string -> Option<string>, now: int, stamp: int)
    requires intent.intent == SearchFlights && MissingFlightFields(intent.slots) == []
    ensures RouteEffect(t, storeUp, schedulerUp, intent, userId, ctx, lib, parseDate, now, stamp).1
         == SearchOutcome(intent.slots["source"], intent.slots["destination"], intent.slots["date"],
                          SlotOrNone(intent.slots, "time_window"),
                          Some(if ctx.intentSpecific.Some? then ctx.intentSpecific.value else map[]), parseDate)
  {
  }

  class CommandRouter {
    const reminders: AlarmService

    constructor (reminders: AlarmService)
      ensures this.reminders == reminders
    {
      this.reminders := reminders;
    }

    /** `route`: dispatch on the intent, as `RouteEffect` describes, keeping the alarm
        service's invariant. */
    method Route(intent: Intent, userId: string, ctx: UserContext, lib: TimeLib,
                 parseDate: string -> Option<string>, now: int, stamp: int) returns (r: ActionResult)
      requires reminders.Valid()
      modifies reminders
      ensures reminders.Valid()
      ensures (reminders.Tables(), r) ==
        RouteEffect(old(reminders.Tables()), reminders.storeUp, reminders.schedulerUp, intent, userId, ctx,
                    lib, parseDate, now, stamp)
    {
      match intent.intent {
        case SetAlarm =>
          r := HandleSetAlarm(intent, userId, ctx, lib, now, stamp);
        case DeleteAlarm =>
          r := reminders.DeleteRecentAlarm(userId);
        case SearchFlights =>
          r := HandleSearchFlights(intent, ctx, parseDate);
        case GetWeather =>
          r := Reply(NotImplemented, WeatherMessage);
        case _ =>
          r := Reply(UnknownIntent, UnknownIntentMessage);
      }
    }

    /** `_handle_set_alarm`. */
    method HandleSetAlarm(intent: Intent, userId: string, ctx: UserContext, lib: TimeLib, now: int, stamp: int)
      returns (r: ActionResult)
      requires reminders.Valid()
      modifies reminders
      ensures reminders.Valid()
      ensures Missing(intent.slots, "time") ==>
        r == Reply(MissingSlots, MissingTimeMessage) && reminders.Tables() == old(reminders.Tables())
      ensures !Missing(intent.slots, "time") ==>
        (reminders.Tables(), r) == SetAlarmEffect(old(reminders.Tables()), reminders.storeUp, reminders.schedulerUp,
                                                  lib, userId, intent.slots["time"], AlarmZone(ctx), false, None, now, stamp)
    {
      if Missing(intent.slots, "time") {
        return Reply(MissingSlots, MissingTimeMessage);
      }
      r := reminders.SetAlarm(lib, userId, intent.slots["time"], AlarmZone(ctx), false, None, now, stamp);
    }

    /** `_handle_search_flights`. */
    method HandleSearchFlights(intent: Intent, ctx: UserContext, parseDate: string -> Option<string>)
      returns (r: ActionResult)
      ensures MissingFlightFields(intent.slots) != [] ==>
        r == Reply(MissingSlots, MissingPrefix + Join(MissingFlightFields(intent.slots), ", "))
      ensures MissingFlightFields(intent.slots) == [] ==>
        r == SearchOutcome(intent.slots["source"], intent.slots["destination"], intent.slots["date"],
                           SlotOrNone(intent.slots, "time_window"), Some(ctx.intentSpecific.GetOr(map[])), parseDate)
    {
      var missing := CollectMissing(intent.slots);
      if missing != [] {
        return Reply(MissingSlots, MissingPrefix + Join(missing, ", "));
      }
      var preferences := ctx.intentSpecific.GetOr(map[]);
      r := Flights.SearchFlights(intent.slots["source"], intent.slots["destination"], intent.slots["date"],
                         SlotOrNone(intent.slots, "time_window"), Some(preferences), parseDate);
    }
  }
}
