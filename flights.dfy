/** Flight search over the built-in offer list: time-of-day window, preference filters,
    cheapest first, at most five, and the city to airport-code lookup. */
module Flights {
  import opened Wrappers
  import opened Text
  import opened Seqs
  import opened Schemas

  /** At most this many offers are returned. */
  const MaxResults: nat := 5

  const BadDateMessage: string := "I couldn't understand that date format."
  const SearchFailedMessage: string := "Failed to search flights. Please try again."

  /** The three offers every search starts from. */
  const MockFlights: seq<FlightResult> := [
    FlightResult("IndiGo", "6E-2045", "17:25", "19:55", "2h 30m", 7200, "INR", true, 0),
    FlightResult("Air India", "AI-512", "18:15", "20:50", "2h 35m", 8500, "INR", true, 0),
    FlightResult("SpiceJet", "SG-134", "19:00", "21:35", "2h 35m", 6800, "INR", true, 0)]

  /** `d.get(k)` on a preference dictionary, `None` read as null. */
  function Get(prefs: map<string, Value>, k: string): Value {
    if k in prefs then prefs[k] else VNull
  }

  /** `s.split(":")[0]`. */
  function BeforeColon(s: string): (r: string)
    ensures |r| <= |s| && r == s[..|r|] && ':' !in r
  {
    if s == [] || s[0] == ':' then [] else [s[0]] + BeforeColon(s[1..])
  }

  /** `int(s)` for a string of decimal digits; `None` where `int` raises. */
  function ParseDigits(s: string): Option<nat>
  {
    if s == [] || !('0' <= s[|s| - 1] <= '9') then None
    else
      var d := (s[|s| - 1] as int) - ('0' as int);
      if |s| == 1 then Some(d)
      else match ParseDigits(s[..|s| - 1])
        case None => None
        case Some(n) => Some(n * 10 + d)
  }

  /** The departure hour, `int(departure_time.split(":")[0])`. */
  function DepartureHour(f: FlightResult): Option<nat> {
    ParseDigits(BeforeColon(f.departureTime))
  }

  /** A departure time written "hh:..." leaves at hour hh. */
  lemma TwoDigitHour(s: string)
    requires |s| >= 3 && '0' <= s[0] <= '9' && '0' <= s[1] <= '9' && s[2] == ':'
    ensures ParseDigits(BeforeColon(s)) == Some((s[0] as int - '0' as int) * 10 + (s[1] as int - '0' as int))
  {
    assert BeforeColon(s[1..]) == [s[1]] by {
      assert s[1..][0] == s[1];
      assert s[1..][1..] == s[2..];
    }
    var h := BeforeColon(s);
    assert h == [s[0], s[1]];
    assert h[..1] == [s[0]];
  }

  /** The built-in offers leave at 17, 18 and 19 o'clock. */
  lemma MockDepartureHours()
    ensures DepartureHour(MockFlights[0]) == Some(17)
    ensures DepartureHour(MockFlights[1]) == Some(18)
    ensures DepartureHour(MockFlights[2]) == Some(19)
  {
    TwoDigitHour(MockFlights[0].departureTime);
    TwoDigitHour(MockFlights[1].departureTime);
    TwoDigitHour(MockFlights[2].departureTime);
  }

  /** The hour range `[start, end)` of a named window; an unknown name admits every hour. */
  function WindowRange(window: string): (int, int) {
    if window == "morning" then (6, 12)
    else if window == "afternoon" then (12, 16)
    else if window == "evening" then (16, 22)
    else if window == "night" then (22, 6)
    else (0, 24)
  }

  predicate InRange(f: FlightResult, range: (int, int)) {
    DepartureHour(f).Some? && range.0 <= DepartureHour(f).value < range.1
  }

  /** The flights departing within the window, in their original order. */
  function Departing(flights: seq<FlightResult>, window: string): (r: seq<FlightResult>)
    ensures forall f :: f in r <==> f in flights && InRange(f, WindowRange(Lower(window)))
  {
    Filter(flights, InWindow(window))
  }

  /** The window test as a predicate on flights. */
  function InWindow(window: string): FlightResult -> bool {
    (f: FlightResult) => InRange(f, WindowRange(Lower(window)))
  }

  /** `_filter_by_time_window`: keeps, in order, exactly the flights whose departure hour
      lies in the window's range. Every departure time must begin with an hour. */
  method FilterByTimeWindow(flights: seq<FlightResult>, window: string) returns (filtered: seq<FlightResult>)
    requires forall f :: f in flights ==> DepartureHour(f).Some?
    ensures filtered == Departing(flights, window)
  {
    var range := WindowRange(Lower(window));
    filtered := [];
    var i := 0;
    while i < |flights|
      invariant 0 <= i <= |flights|
      invariant filtered == Departing(flights[..i], window)
    {
      var hour := DepartureHour(flights[i]).value;
      DepartingStep(flights, i, window);
      if range.0 <= hour < range.1 {
        filtered := filtered + [flights[i]];
      }
      i := i + 1;
    }
    assert flights[..i] == flights;
  }

  /** One more flight examined: it is kept exactly when it departs in the window. */
  lemma DepartingStep(flights: seq<FlightResult>, i: nat, window: string)
    requires i < |flights|
    ensures Departing(flights[..i + 1], window) ==
      Departing(flights[..i], window) + (if InRange(flights[i], WindowRange(Lower(window))) then [flights[i]] else [])
  {
    FilterSnoc(flights[..i], flights[i], InWindow(window));
    assert flights[..i + 1] == flights[..i] + [flights[i]];
  }

  /** An unknown window keeps every flight whose hour is a clock hour. */
  lemma UnknownWindowKeepsAll(flights: seq<FlightResult>, window: string)
    requires Lower(window) !in {"morning", "afternoon", "evening", "night"}
    requires forall f :: f in flights ==> DepartureHour(f).Some? && DepartureHour(f).value < 24
    ensures forall f :: f in flights ==> f in Departing(flights, window)
  {
  }

  /** The night range runs from 22 to 6, and no hour is both at least 22 and below 6, so
      the night window never keeps a flight. */
  lemma NightWindowIsEmpty(flights: seq<FlightResult>)
    ensures Departing(flights, "night") == []
  {
    assert Lower("night") == "night";
    FilterNone(flights, (f: FlightResult) => InRange(f, WindowRange(Lower("night"))));
  }

  /** The text of a value compared with a string field: only a string can equal it. */
  predicate ValueIs(v: Value, s: string) {
    v == VStr(s)
  }

  /** The `airline_pref` filter, applied when the preference is set. */
  function ByAirline(flights: seq<FlightResult>, prefs: map<string, Value>): (r: seq<FlightResult>)
    ensures |r| <= |flights|
    ensures forall f :: f in r <==>
      f in flights && (Truthy(Get(prefs, "airline_pref")) ==> ValueIs(Get(prefs, "airline_pref"), f.airline))
  {
    if Truthy(Get(prefs, "airline_pref"))
    then Filter(flights, (f: FlightResult) => ValueIs(Get(prefs, "airline_pref"), f.airline))
    else flights
  }

  /** The `max_price` filter: a number keeps the offers at or below it; a non-empty string
      makes the comparison raise, unless no offer is left to compare. */
  function ByMaxPrice(flights: seq<FlightResult>, prefs: map<string, Value>): (r: Option<seq<FlightResult>>)
    ensures r.None? <==> Truthy(Get(prefs, "max_price")) && !Get(prefs, "max_price").VInt? && flights != []
    ensures r.Some? ==> |r.value| <= |flights|
    ensures r.Some? ==> forall f :: f in r.value <==>
      f in flights && (Truthy(Get(prefs, "max_price")) && Get(prefs, "max_price").VInt? ==> f.price <= Get(prefs, "max_price").i)
  {
    var max := Get(prefs, "max_price");
    if !Truthy(max) then Some(flights)
    else match max
      case VInt(m) => Some(Filter(flights, (f: FlightResult) => f.price <= m))
      case _ => if flights == [] then Some([]) else None
  }

  /** The `flight_type == "direct"` filter. */
  function ByFlightType(flights: seq<FlightResult>, prefs: map<string, Value>): (r: seq<FlightResult>)
    ensures |r| <= |flights|
    ensures forall f :: f in r <==> f in flights && (ValueIs(Get(prefs, "flight_type"), "direct") ==> f.direct)
  {
    if ValueIs(Get(prefs, "flight_type"), "direct") then Filter(flights, (f: FlightResult) => f.direct)
    else flights
  }

  function Cheapest(flights: seq<FlightResult>): seq<FlightResult> {
    Take(SortBy(flights, (f: FlightResult) => f.price), MaxResults)
  }

  /** Sorting by price and keeping five orders the offers cheapest first and, when there
      are no more than five, keeps them all. */
  lemma CheapestFacts(flights: seq<FlightResult>)
    ensures |Cheapest(flights)| <= MaxResults
    ensures SortedBy(Cheapest(flights), (f: FlightResult) => f.price)
    ensures multiset(Cheapest(flights)) <= multiset(flights)
    ensures |flights| <= MaxResults ==> forall f :: f in Cheapest(flights) <==> f in flights
  {
    var key := (f: FlightResult) => f.price;
    SortByFacts(flights, key);
    TakeMultiset(SortBy(flights, key), MaxResults);
    TakeSorted(SortBy(flights, key), MaxResults, key);
    forall f ensures f in SortBy(flights, key) <==> f in flights {
      assert f in SortBy(flights, key) <==> f in multiset(SortBy(flights, key));
      assert f in flights <==> f in multiset(flights);
    }
  }

  /** The built-in offers narrowed to the time window, when one is given. */
  function Windowed(offers: seq<FlightResult>, timeWindow: Option<string>): (r: seq<FlightResult>)
    ensures |r| <= |offers|
    ensures forall f :: f in r <==>
      f in offers && (timeWindow.Some? && timeWindow.value != "" ==> InRange(f, WindowRange(Lower(timeWindow.value))))
  {
    if timeWindow.Some? && timeWindow.value != "" then Departing(offers, timeWindow.value) else offers
  }

  /** What `_get_mock_flights` makes of the offers `offers`, `None` where it raises. */
  function Selection(offers: seq<FlightResult>, timeWindow: Option<string>, prefs: map<string, Value>)
    : Option<seq<FlightResult>>
  {
    match ByMaxPrice(ByAirline(Windowed(offers, timeWindow), prefs), prefs)
    case None => None
    case Some(priced) => Some(Cheapest(ByFlightType(priced, prefs)))
  }

  /** Every filter a preference sets holds of an offer. */
  predicate MeetsPreferences(f: FlightResult, timeWindow: Option<string>, prefs: map<string, Value>) {
    && (timeWindow.Some? && timeWindow.value != "" ==> InRange(f, WindowRange(Lower(timeWindow.value))))
    && (Truthy(Get(prefs, "airline_pref")) ==> ValueIs(Get(prefs, "airline_pref"), f.airline))
    && (Truthy(Get(prefs, "max_price")) && Get(prefs, "max_price").VInt? ==> f.price <= Get(prefs, "max_price").i)
    && (ValueIs(Get(prefs, "flight_type"), "direct") ==> f.direct)
  }

  /** The selection is cheapest first, at most five long, and holds exactly the built-in
      offers that meet every preference set; it fails only on a textual `max_price` with
      offers left to compare. */
  lemma {:induction false} SelectionFacts(offers: seq<FlightResult>, timeWindow: Option<string>, prefs: map<string, Value>)
    requires |offers| <= MaxResults
    ensures Selection(offers, timeWindow, prefs).None? ==>
      Truthy(Get(prefs, "max_price")) && !Get(prefs, "max_price").VInt?
    ensures Selection(offers, timeWindow, prefs).Some? ==>
      var r := Selection(offers, timeWindow, prefs).value;
      && |r| <= MaxResults
      && SortedBy(r, (f: FlightResult) => f.price)
      && (forall f :: f in r <==> f in offers && MeetsPreferences(f, timeWindow, prefs))
  {
    var priced := ByMaxPrice(ByAirline(Windowed(offers, timeWindow), prefs), prefs);
    if priced.Some? {
      CheapestFacts(ByFlightType(priced.value, prefs));
    }
  }

  /** The body of `_get_mock_flights` over the offers `offers`: the list is narrowed step
      by step, then sorted by price and cut. */
  method SelectFlights(offers: seq<FlightResult>, timeWindow: Option<string>, prefs: map<string, Value>)
    returns (r: Option<seq<FlightResult>>)
    requires forall f :: f in offers ==> DepartureHour(f).Some?
    ensures r == Selection(offers, timeWindow, prefs)
  {
    var flights := offers;
    if timeWindow.Some? && timeWindow.value != "" {
      flights := FilterByTimeWindow(flights, timeWindow.value);
    }
    flights := ByAirline(flights, prefs);
    var priced := ByMaxPrice(flights, prefs);
    if priced.None? {
      return None;
    }
    flights := ByFlightType(priced.value, prefs);
    flights := SortBy(flights, (f: FlightResult) => f.price);
    r := Some(Take(flights, MaxResults));
  }

  /** `_get_mock_flights`: the selection from the three built-in offers. */
  method GetMockFlights(timeWindow: Option<string>, prefs: map<string, Value>) returns (r: Option<seq<FlightResult>>)
    ensures r == Selection(MockFlights, timeWindow, prefs)
  {
    MockDepartureHours();
    r := SelectFlights(MockFlights, timeWindow, prefs);
  }

  const CityCodes: map<string, string> := map[
    "delhi" := "DEL", "bangalore" := "BLR", "bengaluru" := "BLR", "mumbai" := "BOM",
    "chennai" := "MAA", "kolkata" := "CCU", "hyderabad" := "HYD", "pune" := "PNQ",
    "goa" := "GOI", "jaipur" := "JAI", "new york" := "JFK", "london" := "LHR",
    "dubai" := "DXB", "singapore" := "SIN"]

  /** `_get_airport_code`: the code of a known city, in any letter case; otherwise the first
      three characters, upper-cased. */
  function AirportCode(city: string): (code: string)
    ensures Lower(city) in CityCodes ==> code == CityCodes[Lower(city)]
    ensures Lower(city) !in CityCodes ==> code == Upper(city[..if |city| < 3 then |city| else 3])
    ensures |code| <= 3
    ensures (Lower(city) in CityCodes || |city| >= 3) ==> |code| == 3
  {
    if Lower(city) in CityCodes then CityCodes[Lower(city)]
    else Upper(city[..if |city| < 3 then |city| else 3])
  }

  /** The result of `search_flights`: an unparseable date is reported first; a failing
      selection is reported as a failed search; otherwise the offers come back with their
      count, the cities as given and the normalised date. */
  function SearchOutcome(source: string, destination: string, date: string, timeWindow: Option<string>,
                         preferences: Option<map<string, Value>>, parseDate: string -> Option<string>)
    : (r: ActionResult)
    ensures parseDate(date).None? ==> r == Reply(Error, BadDateMessage)
    ensures r.status == Success <==>
      parseDate(date).Some? && Selection(MockFlights, timeWindow, preferences.GetOr(map[])).Some?
    ensures r.status != Success ==> r.status == Error && r.payload == NoPayload
    ensures r.status == Success ==> r.message.None?
    ensures r.status == Success ==>
      var flights := Selection(MockFlights, timeWindow, preferences.GetOr(map[])).value;
      r.payload == FlightsFound(flights, |flights|, source, destination, parseDate(date).value)
  {
    if parseDate(date).None? then Reply(Error, BadDateMessage)
    else match Selection(MockFlights, timeWindow, preferences.GetOr(map[]))
      case None => Reply(Error, SearchFailedMessage)
      case Some(flights) => ActionResult(Success, None, FlightsFound(flights, |flights|, source, destination, parseDate(date).value))
  }

  /** `search_flights`. The date is parsed first; the airport codes are computed but the
      built-in offers do not depend on them. */
  method SearchFlights(source: string, destination: string, date: string, timeWindow: Option<string>,
                       preferences: Option<map<string, Value>>, parseDate: string -> Option<string>)
    returns (r: ActionResult)
    ensures r == SearchOutcome(source, destination, date, timeWindow, preferences, parseDate)
  {
    var parsedDate := parseDate(date);
    if parsedDate.None? {
      return Reply(Error, BadDateMessage);
    }
    var sourceCode := AirportCode(source);
    var destCode := AirportCode(destination);
    var flights := GetMockFlights(timeWindow, preferences.GetOr(map[]));
    if flights.None? {
      return Reply(Error, SearchFailedMessage);
    }
    r := ActionResult(Success, None, FlightsFound(flights.value, |flights.value|, source, destination, parsedDate.value));
  }
}
