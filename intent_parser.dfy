/** Intent resolution: an ordered table of rule patterns tried first, slot extraction for
    the matched intent, and a language-model tier used when no rule matches. The regular
    expression engine and the model are abstract. */
module IntentParser {
  import opened Wrappers
  import opened Text
  import opened Schemas

  /** Every rule match carries this confidence. */
  const RuleConfidence: real := 0.9
  /** A rule match is accepted only above this confidence. */
  const AcceptThreshold: real := 0.8
  /** The confidence of a model reply that gives none. */
  const LlmDefaultConfidence: real := 0.7

  const SetAlarmPatterns: seq<string> := [
    @"set (?:an? )?alarm (?:for|at) (\d{1,2}(?::\d{2})?\s*(?:am|pm)?)",
    @"wake me (?:up )?(?:at|by) (\d{1,2}(?::\d{2})?\s*(?:am|pm)?)",
    @"remind me (?:at|by) (\d{1,2}(?::\d{2})?\s*(?:am|pm)?)"]
  const DeleteAlarmPatterns: seq<string> := [
    @"delete (?:the )?alarm", @"cancel (?:the )?alarm", @"remove (?:the )?alarm"]
  const SearchFlightsPatterns: seq<string> := [
    @"(?:find|search|show|get).{0,30}flights?", @"flights?.{0,30}(?:from|to)", @"(?:book|need).{0,30}(?:flight|ticket)"]
  const GetWeatherPatterns: seq<string> := [
    @"(?:what'?s|how'?s) (?:the )?weather", @"weather (?:in|for|at)", @"temperature (?:in|for|at)"]

  /** The rule table, in the order its intents and their patterns are tried. */
  const IntentPatterns: seq<(IntentType, seq<string>)> := [
    (SetAlarm, SetAlarmPatterns), (DeleteAlarm, DeleteAlarmPatterns),
    (SearchFlights, SearchFlightsPatterns), (GetWeather, GetWeatherPatterns)]

  /** The abstract regular-expression engine. `search(p, text)` is `re.search(p, text,
      re.IGNORECASE)`: `None` when nothing matches, otherwise the match's groups. The other
      three are the captured group of the source-city, destination-city and date searches. */
  datatype Recognisers = Recognisers(
    search: (string, string) -> Option<seq<string>>,
    fromCity: string -> Option<string>,
    toCity: string -> Option<string>,
    travelDate: string -> Option<string>)

  /** The groups of the first pattern in `patterns` that matches `text`. */
  function FirstMatchIn(search: (string, string) -> Option<seq<string>>, text: string, patterns: seq<string>)
    : (r: Option<seq<string>>)
    ensures r.None? <==> forall j :: 0 <= j < |patterns| ==> search(patterns[j], text).None?
  {
    if patterns == [] then None
    else if search(patterns[0], text).Some? then search(patterns[0], text)
    else FirstMatchIn(search, text, patterns[1..])
  }

  /** The first intent of `table` with a matching pattern, and that pattern's groups. */
  function MatchTable(search: (string, string) -> Option<seq<string>>, text: string,
                      table: seq<(IntentType, seq<string>)>): (r: Option<(IntentType, seq<string>)>)
    ensures r.None? <==> forall i, j :: 0 <= i < |table| && 0 <= j < |table[i].1| ==> search(table[i].1[j], text).None?
  {
    if table == [] then None
    else match FirstMatchIn(search, text, table[0].1)
      case Some(groups) => Some((table[0].0, groups))
      case None =>
        var rest := MatchTable(search, text, table[1..]);
        assert forall i :: 1 <= i < |table| ==> table[i] == table[1..][i - 1];
        rest
  }

  /** The match is the first one in pattern order: pattern `j` of entry `i` matches with the
      reported groups, and no pattern before it, in the same entry or an earlier one, matches. */
  lemma {:induction false} MatchTableIsFirst(search: (string, string) -> Option<seq<string>>, text: string,
                                             table: seq<(IntentType, seq<string>)>) returns (i: nat, j: nat)
    requires MatchTable(search, text, table).Some?
    ensures i < |table| && j < |table[i].1|
    ensures search(table[i].1[j], text).Some?
    ensures MatchTable(search, text, table).value == (table[i].0, search(table[i].1[j], text).value)
    ensures forall j' :: 0 <= j' < j ==> search(table[i].1[j'], text).None?
    ensures forall i', j' :: 0 <= i' < i && 0 <= j' < |table[i'].1| ==> search(table[i'].1[j'], text).None?
  {
    if FirstMatchIn(search, text, table[0].1).Some? {
      i := 0;
      j := FirstMatchInIsFirst(search, text, table[0].1);
    } else {
      var i1, j1 := MatchTableIsFirst(search, text, table[1..]);
      i, j := i1 + 1, j1;
    }
  }

  lemma {:induction false} FirstMatchInIsFirst(search: (string, string) -> Option<seq<string>>, text: string,
                                               patterns: seq<string>) returns (j: nat)
    requires FirstMatchIn(search, text, patterns).Some?
    ensures j < |patterns| && FirstMatchIn(search, text, patterns) == search(patterns[j], text)
    ensures forall k :: 0 <= k < j ==> search(patterns[k], text).None?
  {
    if search(patterns[0], text).Some? {
      j := 0;
    } else {
      var j1 := FirstMatchInIsFirst(search, text, patterns[1..]);
      j := j1 + 1;
    }
  }

  /** The `time_window` slot: the first of morning, afternoon, evening, night present in the text. */
  function TimeWindow(text: string): (r: Option<string>)
    ensures r == Some("morning") <==> Contains(text, "morning")
    ensures r == Some("afternoon") <==> !Contains(text, "morning") && Contains(text, "afternoon")
    ensures r == Some("evening") <==>
      !Contains(text, "morning") && !Contains(text, "afternoon") && Contains(text, "evening")
    ensures r == Some("night") <==>
      !Contains(text, "morning") && !Contains(text, "afternoon") && !Contains(text, "evening") && Contains(text, "night")
    ensures r.None? <==>
      !Contains(text, "morning") && !Contains(text, "afternoon") && !Contains(text, "evening") && !Contains(text, "night")
  {
    if Contains(text, "morning") then Some("morning")
    else if Contains(text, "afternoon") then Some("afternoon")
    else if Contains(text, "evening") then Some("evening")
    else if Contains(text, "night") then Some("night")
    else None
  }

  /** A text naming several windows gets the earliest one in the fixed priority. */
  lemma MorningWins(before: string, after: string)
    ensures TimeWindow(before + "morning" + after) == Some("morning")
  {
    ContainsMiddle(before, "morning", after);
  }

  const FlightSlotKeys: set<string> := {"source", "destination", "date", "time_window"}

  /** The slots `_extract_flight_slots` produces: each present exactly when its search matches. */
  function FlightSlots(text: string, rec: Recognisers): (slots: map<string, string>)
    ensures slots.Keys <= FlightSlotKeys
    ensures "source" in slots <==> rec.fromCity(text).Some?
    ensures "source" in slots ==> slots["source"] == Strip(rec.fromCity(text).value)
    ensures "destination" in slots <==> rec.toCity(text).Some?
    ensures "destination" in slots ==> slots["destination"] == Strip(rec.toCity(text).value)
    ensures "date" in slots <==> rec.travelDate(text).Some?
    ensures "date" in slots ==> slots["date"] == rec.travelDate(text).value
    ensures "time_window" in slots <==> TimeWindow(text).Some?
    ensures "time_window" in slots ==> slots["time_window"] == TimeWindow(text).value
  {
    var s3 := FlightSearchSlots(text, rec);
    if TimeWindow(text).Some? then s3["time_window" := TimeWindow(text).value] else s3
  }

  /** The source, destination and date slots, before the time window is added. */
  function FlightSearchSlots(text: string, rec: Recognisers): map<string, string> {
    var s1 := if rec.fromCity(text).Some? then map["source" := Strip(rec.fromCity(text).value)] else map[];
    var s2 := if rec.toCity(text).Some? then s1["destination" := Strip(rec.toCity(text).value)] else s1;
    if rec.travelDate(text).Some? then s2["date" := rec.travelDate(text).value] else s2
  }

  /** `_extract_flight_slots`, filling the slots one search at a time. */
  method ExtractFlightSlots(text: string, rec: Recognisers) returns (slots: map<string, string>)
    ensures slots == FlightSlots(text, rec)
  {
    slots := map[];
    var fromMatch := rec.fromCity(text);
    var toMatch := rec.toCity(text);
    if fromMatch.Some? {
      slots := slots["source" := Strip(fromMatch.value)];
    }
    if toMatch.Some? {
      slots := slots["destination" := Strip(toMatch.value)];
    }
    var dateMatch := rec.travelDate(text);
    if dateMatch.Some? {
      slots := slots["date" := dateMatch.value];
    }
    assert slots == FlightSearchSlots(text, rec);
    var window := TimeWindow(text);
    if window.Some? {
      slots := slots["time_window" := window.value];
    }
  }

  /** The slots of a rule match of intent `t` with match groups `groups`. */
  function SlotsFor(text: string, t: IntentType, groups: seq<string>, rec: Recognisers): map<string, string> {
    if t == SetAlarm then (if |groups| > 0 then map["time" := groups[0]] else map[])
    else if t == SearchFlights then FlightSlots(text, rec)
    else map[]
  }

  /** `_extract_slots_from_pattern`. */
  method ExtractSlotsFromPattern(text: string, t: IntentType, groups: seq<string>, rec: Recognisers)
    returns (slots: map<string, string>)
    ensures slots == SlotsFor(text, t, groups, rec)
  {
    slots := map[];
    if t == SetAlarm {
      if |groups| > 0 {
        slots := slots["time" := groups[0]];
      }
    } else if t == SearchFlights {
      var flight := ExtractFlightSlots(text, rec);
      slots := slots + flight;
    }
  }

  /** What the rule tier makes of an already normalised text. */
  function RuleIntent(text: string, rec: Recognisers): Option<Intent> {
    match MatchTable(rec.search, text, IntentPatterns)
    case None => None
    case Some((t, groups)) => Some(Intent(t, SlotsFor(text, t, groups, rec), RuleConfidence, text))
  }

  /** A rule match is the table's first matching intent, is always accepted, keeps the
      normalised text, and its slots have the intent's shape: only `time` (the first group)
      for an alarm, only flight keys for flights, none otherwise. */
  lemma RuleIntentShape(text: string, rec: Recognisers)
    requires RuleIntent(text, rec).Some?
    ensures var r := RuleIntent(text, rec).value;
      && r.intent == MatchTable(rec.search, text, IntentPatterns).value.0
      && r.intent in {SetAlarm, DeleteAlarm, SearchFlights, GetWeather}
      && r.confidence == RuleConfidence && r.confidence > AcceptThreshold
      && r.originalText == text
      && (r.intent == SetAlarm ==> r.slots.Keys <= {"time"})
      && (r.intent == SearchFlights ==> r.slots.Keys <= FlightSlotKeys)
      && (r.intent in {DeleteAlarm, GetWeather} ==> r.slots == map[])
  {
    var i, j := MatchTableIsFirst(rec.search, text, IntentPatterns);
  }

  /** `_rule_based_parse`: intents in table order, each one's patterns in list order, the
      first match returned at once. */
  method RuleBasedParse(text: string, rec: Recognisers) returns (r: Option<Intent>)
    ensures r == RuleIntent(text, rec)
  {
    var i := 0;
    while i < |IntentPatterns|
      invariant 0 <= i <= |IntentPatterns|
      invariant MatchTable(rec.search, text, IntentPatterns) == MatchTable(rec.search, text, IntentPatterns[i..])
    {
      var (t, patterns) := IntentPatterns[i];
      var j := 0;
      while j < |patterns|
        invariant 0 <= j <= |patterns|
        invariant FirstMatchIn(rec.search, text, patterns) == FirstMatchIn(rec.search, text, patterns[j..])
      {
        var m := rec.search(patterns[j], text);
        if m.Some? {
          var slots := ExtractSlotsFromPattern(text, t, m.value, rec);
          return Some(Intent(t, slots, RuleConfidence, text));
        }
        assert patterns[j..][1..] == patterns[j + 1..];
        j := j + 1;
      }
      assert IntentPatterns[i..][1..] == IntentPatterns[i + 1..];
      i := i + 1;
    }
    return None;
  }

  /** What the language model answered: a failure (network, unparseable JSON, or a reply
      that is not an object), or a JSON object with whichever of its fields it carried. */
  datatype LlmReply =
    | LlmFailure
    | LlmJson(intentLabel: Option<string>, slots: Option<map<string, string>>, confidence: Option<real>)

  /** `_llm_parse` of the raw text, given the model's reply to it. */
  function LlmParse(text: string, reply: LlmReply): (r: Intent)
    ensures r.originalText == text
    ensures reply.LlmFailure? ==> r == Intent(Unknown, map[], 0.0, text)
    ensures reply.LlmJson? ==> r.confidence == reply.confidence.GetOr(LlmDefaultConfidence)
    ensures reply.LlmJson? ==> r.slots == reply.slots.GetOr(map[])
  {
    match reply
    case LlmFailure => Intent(Unknown, map[], 0.0, text)
    case LlmJson(intentLabel, slots, confidence) =>
      Intent(IntentFromValue(intentLabel.GetOr("unknown")).GetOr(Unknown), slots.GetOr(map[]),
             confidence.GetOr(LlmDefaultConfidence), text)
  }

  /** A model label names its intent exactly when it is one of the seven values; any
      other label, and a missing one, resolves to `Unknown`. */
  lemma LlmLabelMapping(text: string, intentLabel: Option<string>, slots: Option<map<string, string>>,
                        confidence: Option<real>)
    ensures forall t :: intentLabel == Some(IntentValue(t)) ==> LlmParse(text, LlmJson(intentLabel, slots, confidence)).intent == t
    ensures (intentLabel.None? || forall t :: intentLabel.value != IntentValue(t)) ==>
      LlmParse(text, LlmJson(intentLabel, slots, confidence)).intent == Unknown
  {
    forall t | intentLabel == Some(IntentValue(t)) {
      IntentValueRoundTrip(t);
    }
  }

  /** The intent `parse` settles on: the rule tier's when a rule matches, the model's otherwise. */
  function Understood(text: string, rec: Recognisers, classify: string -> LlmReply): Intent {
    var ruleBased := RuleIntent(Strip(Lower(text)), rec);
    if ruleBased.Some? then ruleBased.value else LlmParse(text, classify(text))
  }

  /** `parse`: the rule tier sees the lower-cased, stripped text; the model tier, reached only
      when no rule matches, sees the text as given. */
  method Parse(text: string, rec: Recognisers, classify: string -> LlmReply) returns (r: Intent)
    ensures RuleIntent(Strip(Lower(text)), rec).Some? ==> r == RuleIntent(Strip(Lower(text)), rec).value
    ensures RuleIntent(Strip(Lower(text)), rec).None? ==> r == LlmParse(text, classify(text))
  {
    var textLower := Strip(Lower(text));
    var ruleBased := RuleBasedParse(textLower, rec);
    if ruleBased.Some? {
      RuleIntentShape(textLower, rec);
    }
    if ruleBased.Some? && ruleBased.value.confidence > AcceptThreshold {
      return ruleBased.value;
    }
    r := LlmParse(text, classify(text));
  }
}
