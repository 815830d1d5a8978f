# Voice-assistant backend, modelled in Dafny

This project models the service layer of a voice-assistant backend ("Jarvis"). A spoken or
typed request is turned into text. The text is parsed into an intent with slots, first by
an ordered table of rule patterns and then by a language model. The user's stored
preferences and recent turns are fetched, and the turn is logged. The intent is routed to
an action: set or delete an alarm, search flights, or weather (not implemented). A reply
sentence is built from the action's result and spoken back.

Beside that pipeline, the model also covers:
- the push-reminder table (devices, reminder records and their notification jobs);
- the direct chat service with its bounded per-user message log;
- the news prompt selection.

Every outside service becomes a parameter, given as the answer it returns:
- the regular-expression engine;
- the language model;
- speech-to-text and text-to-speech;
- the date and time-zone parsers;
- the push transport.

The Mongo collections are sequences in insertion order. The scheduler's job tables are
maps keyed by job id. Times are integers: seconds for push reminders, minutes for alarms.
The modules follow the source files one by one:
- `FirebaseReminders`, `Alarms`, `IntentParser`, `CommandRouter`, `ResponseBuilder`,
  `Orchestrator`, `Flights`, `Memory`, `ChatDirect`, `News` and `Schemas`;
- small shared modules: `Wrappers` (Option and Result), `Text` (string helpers as Python
  defines them), `Seqs` (comprehension, slice, stable sort) and `OrderedMaps` (dictionaries
  whose value listing follows insertion order).

The model keeps the code's behaviour where it is surprising, and states that behaviour
as proved facts:
- Cancelling a reminder overwrites a `sent` status.
- Job ids are not scoped by user, so cancelling one user's reminder can remove the job of
  another user's reminder with the same id.
- The `night` flight window can never match.
- Several reply texts never reach the user. The weather and unknown-intent messages are
  replaced by "I've processed your request.".
- The direct chat service logs a reply without content, or without a usage record, before it fails on it.

## Model

| member | source | states |
|---|---|---|
| Schemas.IntentFromValue | app/models/schemas.py:35-43 | `IntentType(s)` gives a member only for one of the seven values, and that member's value is `s` |
| Schemas.IntentValueRoundTrip | app/models/schemas.py:35-43 | every intent is recovered from its string value |
| Schemas.SevenIntentTypes | app/models/schemas.py:35-43 | the enum has exactly seven members with pairwise distinct values |
| Schemas.DefaultUserPreferences | app/models/schemas.py:54-63 | defaults: timezone "UTC", alarm tone "default", flight type "any", every optional field None |
| OrderedMaps.OrderedMap.Put | app/services/firebase_reminders.py:107-110 | storing under a key updates exactly that entry; a new key goes last, an existing key keeps its place |
| OrderedMaps.OrderedMap.Values | app/services/firebase_reminders.py:344-345 | `list(d.values())` lists one value per key, in key order |
| OrderedMaps.Empty | app/services/firebase_reminders.py:107-108 | a fresh per-user table is empty and well formed |
| OrderedMaps.PutNewAppends | app/services/firebase_reminders.py:107-110 | storing under a new key appends its value to the listing |
| OrderedMaps.PutExistingReplaces | app/services/firebase_reminders.py:107-110 | storing under an existing key replaces its value in place in the listing |
| FirebaseReminders.NaiveIsUtc | app/services/firebase_reminders.py:146-149 | a time without a zone is read as the same wall time in UTC |
| FirebaseReminders.SameInstantSameUtc | app/services/firebase_reminders.py:151-154 | two zoned times for the same instant are stored as the same UTC time |
| FirebaseReminders.JobIdInjective | app/services/firebase_reminders.py:194 | the job id determines the reminder id, so each reminder id has one job |
| FirebaseReminders.Store | app/services/firebase_reminders.py:188-191 | a nested-table write changes only the one user's table, and only at the one key; other users are untouched |
| FirebaseReminders.DropJob | app/services/firebase_reminders.py:285-291 | removing a reminder's job leaves no job for that reminder and keeps every other job consistent |
| FirebaseReminders.ScheduleKeepsValid | app/services/firebase_reminders.py:176-202 | upserting a `scheduled` record and replacing its job keeps the tables consistent: each job names a stored, still-scheduled record due at the job's time |
| FirebaseReminders.RemindersService.constructor | app/services/firebase_reminders.py:21-28 | the service starts with no devices, no reminders and no jobs |
| FirebaseReminders.RemindersService.RegisterDevice | app/services/firebase_reminders.py:86-121 | a token shorter than 10 characters (the empty one included) is refused and nothing is stored; otherwise exactly `devices[user][device]` is set, and the registration id is `user + "_" + device`, expiring 30 days later |
| FirebaseReminders.RemindersService.ScheduleReminder | app/services/firebase_reminders.py:123-214 | refuses when Firebase is uninitialised; the time is normalised to UTC; a time not strictly after `now` is refused before anything is stored; otherwise the record is upserted as `scheduled` under the given id (or a generated one), and job `firebase_reminder_<id>` replaces any job of that id |
| FirebaseReminders.RemindersService.Fire | app/services/firebase_reminders.py:216-268 | a due job runs once and leaves the table; if Firebase is up and the record still exists, it becomes `sent` (with time and response) on delivery, or `failed` (with the error) otherwise; nothing else changes |
| FirebaseReminders.RemindersService.CancelReminder | app/services/firebase_reminders.py:281-306 | never fails; removes the job of that reminder id whoever owns it, and marks an existing record `cancelled` whatever its status was; nothing else changes |
| FirebaseReminders.RemindersService.GetUserDevices | app/services/firebase_reminders.py:341-349 | the user's devices in registration order, `[]` for an unknown user |
| FirebaseReminders.RemindersService.GetUserReminders | app/services/firebase_reminders.py:351-359 | the user's records in first-scheduled order, all owned by that user; `[]` for an unknown user |
| FirebaseReminders.RescheduleReplaces | app/services/firebase_reminders.py:188-202 | scheduling one id twice leaves the record under that id with the second time, still scheduled, and a single job firing at the second time |
| FirebaseReminders.RescheduleKeepsOneRecord | app/services/firebase_reminders.py:188-202 | scheduling one id twice leaves the user exactly one record, listed under that id |
| FirebaseReminders.CancelOverwritesSent | app/services/firebase_reminders.py:293-296 | a reminder already `sent` becomes `cancelled` when cancelled afterwards |
| FirebaseReminders.PastTimeRejected | app/services/firebase_reminders.py:171-173 | a time not strictly in the future is refused, and the user has no reminder afterwards |
| FirebaseReminders.CancelCrossesUsers | app/services/firebase_reminders.py:285-296 | two users with the same reminder id share one job; cancelling one user's reminder removes it, leaving the other's record `scheduled` with no job |
| FirebaseReminders.CancelIsIdempotent | app/services/firebase_reminders.py:281-302 | cancelling succeeds for an unknown id, and a second cancel changes nothing |
| Alarms.AlarmInstant | app/services/reminders.py:106-137 | an alarm time exists iff the time and the zone both parse and the clock is valid; it shows the requested hour:minute in the user's zone, and lies in (now, now + 24h] |
| Alarms.AlarmIsNextOccurrence | app/services/reminders.py:122-130 | the parsed alarm is the earliest instant after now showing the requested local time |
| Alarms.Hour12 | app/services/reminders.py:85 | `%I` is 1 to 12 and agrees with the 24-hour clock modulo 12 |
| Alarms.Clock12 | app/services/reminders.py:85 | `%I:%M %p` is eight characters "hh:mm AM" or "hh:mm PM": hh are the digits of the twelve-hour hour of the UTC time, mm those of its minute, and the suffix is AM before noon and PM from noon |
| Alarms.Clock12Daily | app/services/reminders.py:85 | the label depends only on the time of day |
| Alarms.MostRecentActive | app/services/reminders.py:199-202 | the pick, if any, is an active alarm of the user; there is none exactly when the user has no active alarm |
| Alarms.MostRecentActiveIsNewest | app/services/reminders.py:199-202 | the pick has the greatest `created_at` among the user's active alarms |
| Alarms.ActiveAlarms | app/services/reminders.py:240-241 | exactly the user's active alarms, drawn from the store |
| Alarms.SetAlarmEffectCases | app/services/reminders.py:31-93 | success iff the store answers and the time and zone parse. A failure changes nothing. An unparseable time or zone gives the bad-time message whether or not the store answers; a parsed time with the store down gives the set-failed message. A success appends one active alarm due within a day, installs job `alarm_<id>` when the scheduler works, and says "Alarm set for" the UTC `%I:%M %p` time |
| Alarms.DeleteEffectCases | app/services/reminders.py:185-235 | `not_found` exactly when the user has no active alarm, and then nothing changes. Otherwise only the newest active alarm is deactivated, its job is dropped (present or not) and success is reported. A store failure gives the fixed error and no change |
| Alarms.AlarmService.constructor | app/services/reminders.py:22-23 | the service starts with no alarms and no jobs |
| Alarms.AlarmService.SetAlarm | app/services/reminders.py:31-93 | performs `set_alarm` as described above, keeping every pending job tied to a stored active alarm |
| Alarms.AlarmService.ScheduleAlarm | app/services/reminders.py:139-159 | job `alarm_<id>` replaces any job of that id; a scheduler failure is ignored and changes nothing |
| Alarms.AlarmService.DeleteRecentAlarm | app/services/reminders.py:185-235 | performs `delete_recent_alarm` as described above, keeping every pending job tied to a stored active alarm |
| Alarms.AlarmService.GetUserAlarms | app/services/reminders.py:237-244 | a store failure is an error; otherwise the first 100 of the user's active alarms by alarm time: min(100, their number) of them, ascending, each a stored active alarm of the user, all of them when there are at most 100, and none left out earlier than one listed |
| Alarms.ListedAlarmsFacts | app/services/reminders.py:240-242 | `.sort("alarm_time", 1).to_list(length=100)` lists min(100, n) active alarms of the user, ascending, none left out earlier than one listed |
| IntentParser.FirstMatchIn | app/services/intent_parser.py:89-91 | no match iff no pattern of the list matches |
| IntentParser.MatchTable | app/services/intent_parser.py:88-91 | no match iff no pattern of any intent matches |
| IntentParser.MatchTableIsFirst | app/services/intent_parser.py:88-98 | the match found is the first in table order (intent order, then pattern order), and no earlier pattern matches |
| IntentParser.FirstMatchInIsFirst | app/services/intent_parser.py:89-91 | within one intent, the matching pattern is the first that matches |
| IntentParser.TimeWindow | app/services/intent_parser.py:145-152 | `time_window` is the first of morning, afternoon, evening, night present in the text, and is absent when none is |
| IntentParser.MorningWins | app/services/intent_parser.py:145-146 | a text naming the morning gets the morning window whatever else it names |
| IntentParser.FlightSlots | app/services/intent_parser.py:122-154 | each flight slot is present exactly when its search matches; source and destination are stripped captures; no other keys |
| IntentParser.ExtractFlightSlots | app/services/intent_parser.py:122-154 | fills the slots one search at a time, ending with exactly the slots described above |
| IntentParser.ExtractSlotsFromPattern | app/services/intent_parser.py:102-120 | an alarm match gives `time` from the first group when there is one, a flight match gives the flight slots, and any other match gives no slots |
| IntentParser.RuleIntentShape | app/services/intent_parser.py:88-98 | a rule match is the first matching intent, has confidence 0.9 (above the 0.8 threshold), keeps the normalised text, and carries that intent's slots |
| IntentParser.RuleBasedParse | app/services/intent_parser.py:78-100 | the nested loop with early return finds the first match in table order, or none |
| IntentParser.LlmParse | app/services/intent_parser.py:156-214 | a failure gives `unknown`, no slots and confidence 0.0; a reply's missing slots and confidence default to empty and 0.7; the text is kept as given |
| IntentParser.LlmLabelMapping | app/services/intent_parser.py:194-198 | a label that is one of the seven values gives that intent; any other label, or none, gives `unknown` |
| IntentParser.Parse | app/services/intent_parser.py:54-76 | a rule match on the lower-cased, stripped text is returned without consulting the model; otherwise the model's reading of the raw text is returned |
| Flights.BeforeColon | app/services/flights.py:243 | `split(":")[0]` is the prefix up to the first colon |
| Flights.MockDepartureHours | app/services/flights.py:171-205 | the three built-in offers leave at 17, 18 and 19 |
| Flights.FilterByTimeWindow | app/services/flights.py:226-247 | keeps, in order, exactly the flights whose departure hour lies in the window's `[start, end)` |
| Flights.Departing | app/services/flights.py:241-245 | a flight is kept iff it is in the input and its departure hour lies in the window's range |
| Flights.UnknownWindowKeepsAll | app/services/flights.py:239 | an unknown window, range (0, 24), keeps every flight |
| Flights.NightWindowIsEmpty | app/services/flights.py:236-245 | the `night` range (22, 6) admits no hour, so it always gives an empty list |
| Flights.ByAirline | app/services/flights.py:212-213 | when `airline_pref` is set, keeps exactly the offers of that airline |
| Flights.ByMaxPrice | app/services/flights.py:215-216 | when `max_price` is set, keeps exactly the offers at or below it; a textual maximum with offers left raises |
| Flights.ByFlightType | app/services/flights.py:218-219 | when `flight_type` is "direct", keeps exactly the direct offers |
| Flights.CheapestFacts | app/services/flights.py:221-224 | the sorted, truncated list is ascending by price, at most 5 long, drawn from the input, and complete when the input has at most 5 |
| Flights.Windowed | app/services/flights.py:207-209 | a given window narrows the offers to the flights departing in it |
| Flights.SelectionFacts | app/services/flights.py:161-224 | the selection is cheapest first and at most 5 long; it holds exactly the offers in the window that meet every preference set; it fails only on a textual `max_price` |
| Flights.SelectFlights | app/services/flights.py:207-224 | reassigning the list filter by filter, then sorting and slicing, computes that selection |
| Flights.GetMockFlights | app/services/flights.py:161-224 | `_get_mock_flights` is the selection from the three built-in offers |
| Flights.AirportCode | app/services/flights.py:102-130 | a known city in any letter case gives its code; any other gives its first three characters upper-cased |
| Flights.SearchOutcome | app/services/flights.py:24-82 | an unparseable date gives the fixed date error; success iff the date parses and the selection does not raise; a success carries the flights, `count == len(flights)`, the cities as given and the parsed date |
| Flights.SearchFlights | app/services/flights.py:24-82 | `search_flights` returns that outcome |
| Memory.FindDoc | app/services/memory.py:56 | `find_one` gives the user's first document, and none only when the user has none |
| Memory.FindDocAppend | app/services/memory.py:58-60 | a default document appended for a user who had none is the one later lookups find |
| Memory.DefaultPreferenceDoc | app/services/memory.py:83-93 | the default document belongs to the user |
| Memory.DefaultDocMatchesSchema | app/services/memory.py:83-93 | the defaults are timezone "UTC", alarm tone "default", flight type "any", and null for wake-up, airline, price and seat, as in the preferences record |
| Memory.IntentSpecific | app/services/memory.py:112-136 | alarm context is timezone, tone and wake-up (defaults "UTC" and "default"); flight context is airline, price, seat and flight type (default "any"); any other intent gets an empty map; values come from the preferences |
| Memory.RecentConversationsFacts | app/services/memory.py:98-110 | the recalled turns are the user's five newest: min(5, their number) of them, newest first, all of them when there are at most 5, and no turn of the user left out is newer than one recalled |
| Memory.ContextEffect | app/services/memory.py:37-77 | with the store up, the user's first document afterwards is the context's preferences, owned by the user; a default document is appended only when the user had none; the context carries the recent turns and the intent view of those preferences. With the store down, nothing changes and the fallback context is returned |
| Memory.MemoryService.constructor | app/services/memory.py:26-29 | the stores start empty |
| Memory.MemoryService.GetUserContext | app/services/memory.py:37-77 | the store afterwards and the context returned are those of ContextEffect: the user's first document (created with defaults when missing), the recent turns and the intent-specific view; when the store fails, the fallback context and no change |
| Memory.MemoryService.StoreConversation | app/services/memory.py:138-174 | appends the turn; a store failure is swallowed and nothing changes |
| Memory.MemoryService.UpdateUserPreference | app/services/memory.py:176-195 | sets one field of the user's document, or inserts a document with the user id and that field; a store failure is swallowed |
| Memory.UpdateTouchesOneField | app/services/memory.py:186-190 | the update changes only the field it names, in only the user's document |
| CommandRouter.MissingFlightFields | app/services/command_router.py:114-120 | each of "source city", "destination city", "travel date" is listed iff its slot is missing or empty, in that fixed order, at most once |
| CommandRouter.CollectMissing | app/services/command_router.py:114-120 | the appends build exactly that list |
| CommandRouter.RouteDispatch | app/services/command_router.py:40-57 | only the alarm intents change the alarm tables. Weather is `not_implemented`; book, message and unknown are `unknown_intent`. An alarm without a time asks for it and calls nothing. A flight search with missing fields lists them all in one message |
| CommandRouter.EmptySlotsMessage | app/services/command_router.py:122-126 | with no flight fields the list joins to "source city, destination city, travel date" |
| CommandRouter.AllFlightFieldsMissing | app/services/command_router.py:101-126 | a flight search without slots replies "I need the following information: source city, destination city, travel date" |
| CommandRouter.AlarmZoneDefaultsToUtc | app/services/command_router.py:82 | without a zone preference, the alarm is set in UTC |
| CommandRouter.FlightsUseIntentSpecific | app/services/command_router.py:128-137 | a complete flight search passes the intent-specific context as preferences (empty when absent), with the `time_window` slot |
| CommandRouter.CommandRouter.constructor | app/services/command_router.py:19-21 | the router holds the alarm service it is given |
| CommandRouter.CommandRouter.Route | app/services/command_router.py:23-64 | dispatch on the intent, as described above, keeping the alarm service's invariant |
| CommandRouter.CommandRouter.HandleSetAlarm | app/services/command_router.py:66-90 | a missing or empty time gives `missing_slots` with the fixed question and leaves the alarms alone; otherwise `set_alarm` runs with the preferred zone, no repeat and no label |
| CommandRouter.CommandRouter.HandleSearchFlights | app/services/command_router.py:101-139 | missing fields give one `missing_slots` message; otherwise the search runs on the slots and the intent-specific preferences |
| ResponseBuilder.MessageOr | app/services/response_builder.py:136 | `get("message", default)` gives the message when present, the default otherwise |
| ResponseBuilder.FlightLines | app/services/response_builder.py:119-132 | at most three lines, numbered from 1, one per offer in order |
| ResponseBuilder.FormatFlightsForLlm | app/services/response_builder.py:119-132 | the loop builds those lines joined by newlines |
| ResponseBuilder.FlightLineShape | app/services/response_builder.py:123-131 | a line ends in "non-stop" exactly when the flight is direct, and starts with its number and airline |
| ResponseBuilder.FallbackNamesBestOffer | app/services/response_builder.py:113-117 | the fallback opens with "I found <count> flights" and names the first offer's airline, departure time, price and duration |
| ResponseBuilder.LlmOnlyForFoundFlights | app/services/response_builder.py:39-117 | the language model's answer matters only for a successful flight search with offers |
| ResponseBuilder.BuildResponseCases | app/services/response_builder.py:39-70 | an error or missing-slots result says its message, whatever the intent. Any intent without its own builder says "I've processed your request.". An alarm says its message on success and a fixed apology otherwise |
| ResponseBuilder.LlmAnswerStripped | app/services/response_builder.py:100-111 | a model answer is said with no surrounding whitespace |
| ResponseBuilder.NoAnswerFallsBack | app/services/response_builder.py:113-117 | without a model answer, the reply is the template summary naming the first offer's airline |
| Orchestrator.GetTextInput | app/services/orchestrator.py:122-140 | non-empty text wins; otherwise non-empty audio is transcribed (a failure raises); with neither, the "Either 'text' or 'audio'" error |
| Orchestrator.FailureResponse | app/services/orchestrator.py:109-120 | a failure gives `success=False`, the apology, intent "error", confidence 0.0 and the error as data |
| Orchestrator.SuccessResponse | app/services/orchestrator.py:97-107 | a success gives `success=True`, the intent's value and confidence, and the action's result as data |
| Orchestrator.UnhandledIntentsSayProcessed | app/services/orchestrator.py:81-93 | through routing and reply building, weather and the unsupported intents always say "I've processed your request."; an alarm without a time asks for one |
| Orchestrator.Orchestrator.constructor | app/services/orchestrator.py:35-41 | the orchestrator holds its memory and router services |
| Orchestrator.Orchestrator.ProcessConversation | app/services/orchestrator.py:43-120 | no usable input: the failure response, and nothing changes. Otherwise: parse; the preference store and the context are those of ContextEffect on the store before the turn is stored, so the context's preferences and intent view come from the user's document and the turn being answered is not among the recent turns; store the turn with the intent's value; route with that context; build and speak the reply; respond with the intent, its confidence and the result |
| ChatDirect.LastN | app/services/chatgpt_direct.py:170 | `s[-n:]` is the last `n` elements, or all of them |
| ChatDirect.AnyKeyword | app/services/chatgpt_direct.py:107 | true iff some keyword occurs in the text |
| ChatDirect.ShouldUseWebSearch | app/services/chatgpt_direct.py:99-107 | true iff some listed keyword is a substring of the lower-cased text |
| ChatDirect.WeatherQuestionSearches | app/services/chatgpt_direct.py:101-107 | a lower-case text mentioning the weather triggers a web search |
| ChatDirect.BuildMessages | app/services/chatgpt_direct.py:138-183 | one system message first and the user's message last. The middle is the last ten logged messages, and only with context on. Web results extend the user's text after a newline and add the web-search sentence to the system text |
| ChatDirect.AfterExchangeFacts | app/services/chatgpt_direct.py:192-202 | after an exchange the log is at most 20 long, ends with the user and assistant messages, alternates user/assistant, and loses nothing below the limit |
| ChatDirect.RecentAlternates | app/services/chatgpt_direct.py:168-171 | the last ten messages of a log start with a user message and alternate |
| ChatDirect.MessagesAlternate | app/services/chatgpt_direct.py:160-183 | after the system message, the messages sent alternate user/assistant and end with the user's |
| ChatDirect.ChatDirectService.constructor | app/services/chatgpt_direct.py:33-35 | the service starts with no logs |
| ChatDirect.ChatDirectService.UpdateConversationHistory | app/services/chatgpt_direct.py:185-202 | the user's log becomes the last 20 of old log + user message + assistant message; other users are untouched |
| ChatDirect.ChatDirectService.ClearHistory | app/services/chatgpt_direct.py:204-208 | removes the user's log, and changes nothing for an unknown user |
| ChatDirect.ChatDirectService.ProcessRequest | app/services/chatgpt_direct.py:37-97 | the web is searched only when asked, available and keyword-triggered. A failed model call gives the fixed error and leaves the log alone. An answer is logged only with context on. A reply without content is logged and then reported as an error. A reply with content but no usage record is logged and then reported as the error of reading its token count. Otherwise the answer is returned with its token count and whether the web was searched |
| News.TemplateFor | app/services/news.py:85-111 | general/today, tech/technology and business/finance each share one template; sports has its own; everything else gets the generic one |
| News.SynonymsShareTemplate | app/services/news.py:85-107 | synonymous categories get identical prompts |
| News.PromptOpensWithDate | app/services/news.py:86-111 | every prompt starts with "Today is <today>." and contains the count |
| News.OtherCategoryNamed | app/services/news.py:109-111 | the generic prompt names the category |
| News.GetNews | app/services/news.py:22-80 | the fixed apology exactly when the model call fails; when it answers, a success carrying the category, the date and the model's summary of the category's prompt |
| Seqs.Filter | app/services/flights.py:212-219 | a comprehension keeps exactly the elements that pass, and no more copies of any than the input has |
| Seqs.SortByFacts | app/services/flights.py:222 | the stable sort is ascending by key and a permutation of its input |
| Seqs.SortByStable | app/services/flights.py:222 | the sort is stable: for every key, the elements with that key come out in their input order |
| Seqs.TakeSortByFacts | app/services/reminders.py:240-242 | the first n of a sorted copy: min(n, length) elements, ascending, drawn from the input, all of it when it is short, and none left out with a smaller key than one kept |
| Seqs.FilterSnoc | app/services/flights.py:241-245 | filtering a list extended by one element extends the result by that element exactly when it passes, so the kept elements stay in input order |

## Left out

- Real clocks and calendars: `now` and timestamps are parameters. Alarm times are integer minutes with a fixed zone offset, so daylight-saving transitions and `tz.localize` ambiguity are not modelled. Push-reminder times are integer seconds with an offset.
- Date, time and zone parsing (dateutil, pytz) are abstract functions. `_parse_date` is one too.
- The regular-expression engine: each pattern is a string handed to an abstract search function that returns the match groups.
- Every language-model call (intent classification, reply phrasing, direct chat, news) is an abstract answer or failure. The prompts of the intent classifier and the chat messages' transport are not modelled.
- Speech-to-text, text-to-speech, the push transport (`_send_firebase_message`) and the web search are abstract outcomes. `_perform_web_search` is only its result.
- Firebase and scheduler start-up: two flags fixed at construction. `send_test_notification` is not part of this model.
- FirebaseReminders.RemindersService: the scheduler flag says whether a scheduler object exists. A scheduler that was built but whose `start()` raised still accepts jobs, which never fire; the model treats it as working.
- The Mongo stores are sequences in insertion order. The order Mongo returns among equal sort keys is taken as insertion order.
- Alarms.AlarmService: `_trigger_alarm` is not modelled; its update filters `_id` by a string and so never matches a stored document.
- Alarm and document ids are sequence numbers rather than ObjectIds.
- Text helpers: `lower`, `upper` and `strip` act on ASCII letters and ASCII whitespace only.
- Flights.FilterByTimeWindow: requires every departure hour to parse as a decimal number. `int()` raising on other text is not modelled there. `_get_mock_flights` only ever passes its three built-in offers.
- Flights: the Amadeus client (`_search_amadeus`, `_get_amadeus_token`, `_parse_amadeus_response`) is not part of this model. Prices are whole rupees.
- CommandRouter.CommandRouter.Route: the catch-all `except` (command_router.py:59-64) is not modelled, because no modelled handler raises. The same holds for the `except` of `build_response` (response_builder.py:62-64).
- IntentParser: slot values are strings. A model reply whose slots or confidence have other types is not modelled.
- Schemas: the pydantic records `Intent`, `FlightResult` and `AlarmResponse` are never built from their defaults by the modelled services (the flight offers spell out currency and stops, and no alarm response is built), so those defaults are not modelled and `AlarmResponse` is not part of this model.
- Schemas: a `Value` stands for the JSON values the preference documents hold: strings, integers and null.
- `get_news_about_topic` is not modelled, and neither are the HTTP routers, the logging or asyncio concurrency (operations are sequential calls).
- The alarm's `timezone` argument is a preference value. A non-string value names no zone and makes the time unparseable, as pytz would.
