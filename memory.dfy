/** User memory: preference documents, the conversation log, and the context handed to the
    router for an intent. The document store is modelled by sequences in insertion order. */
module Memory {
  import opened Wrappers
  import opened Seqs
  import opened Schemas

  /** At most this many past turns are recalled. */
  const RecentLimit: nat := 5

  /** A preference document: field name to value. */
  type PrefDoc = map<string, Value>

  /** A stored conversation turn. */
  datatype Turn = Turn(userId: string, text: string, intent: string, response: Option<string>, timestamp: int)

  /** What `get_user_context` returns; `intentSpecific` is absent from the fallback context. */
  datatype UserContext = UserContext(preferences: PrefDoc, recentConversations: seq<Turn>, intentSpecific: Option<PrefDoc>)

  /** `d.get(k, default)`: a stored null is returned as null, not replaced by the default. */
  function GetOr(doc: PrefDoc, k: string, default: Value): Value {
    if k in doc then doc[k] else default
  }

  predicate Owns(doc: PrefDoc, userId: string) {
    "user_id" in doc && doc["user_id"] == VStr(userId)
  }

  /** `find_one({"user_id": u})`: the first document of the user. */
  function FindDoc(docs: seq<PrefDoc>, userId: string): (r: Option<nat>)
    ensures r.None? <==> forall i :: 0 <= i < |docs| ==> !Owns(docs[i], userId)
    ensures r.Some? ==> r.value < |docs| && Owns(docs[r.value], userId)
    ensures r.Some? ==> forall i :: 0 <= i < r.value ==> !Owns(docs[i], userId)
  {
    if docs == [] then None
    else if Owns(docs[0], userId) then Some(0)
    else match FindDoc(docs[1..], userId)
      case None => None
      case Some(i) => Some(i + 1)
  }

  /** The document `_create_default_preferences` stores for a new user. */
  function DefaultPreferenceDoc(userId: string, now: int): (doc: PrefDoc)
    ensures Owns(doc, userId)
  {
    map["user_id" := VStr(userId), "timezone" := VStr("UTC"), "alarm_tone" := VStr("default"),
        "usual_wakeup" := VNull, "airline_pref" := VNull, "max_price" := VNull, "seat_pref" := VNull,
        "flight_type" := VStr("any"), "created_at" := VInt(now)]
  }

  /** The stored defaults agree with the defaults of the `UserPreferences` record: the same
      zone, tone and flight type, and null where the record has no value. */
  lemma DefaultDocMatchesSchema(userId: string, now: int)
    ensures var doc := DefaultPreferenceDoc(userId, now);
      var p := DefaultUserPreferences(userId);
      && doc["user_id"] == VStr(p.userId) && doc["timezone"] == VStr(p.timezone)
      && doc["alarm_tone"] == VStr(p.alarmTone) && doc["flight_type"] == VStr(p.flightType)
      && p.usualWakeup.None? && doc["usual_wakeup"] == VNull
      && p.airlinePref.None? && doc["airline_pref"] == VNull
      && p.maxPrice.None? && doc["max_price"] == VNull
      && p.seatPref.None? && doc["seat_pref"] == VNull
  {
  }

  /** `_get_intent_specific_context`: the alarm fields for an alarm, the flight fields for a
      flight search, nothing otherwise. */
  function IntentSpecific(intent: IntentType, prefs: PrefDoc): (ctx: PrefDoc)
    ensures intent == SetAlarm ==> ctx.Keys == {"timezone", "alarm_tone", "usual_wakeup"}
    ensures intent == SearchFlights ==> ctx.Keys == {"airline_pref", "max_price", "seat_pref", "flight_type"}
    ensures intent !in {SetAlarm, SearchFlights} ==> ctx == map[]
    ensures forall k :: k in ctx && k in prefs ==> ctx[k] == prefs[k]
    ensures intent == SetAlarm ==>
      && ("timezone" !in prefs ==> ctx["timezone"] == VStr("UTC"))
      && ("alarm_tone" !in prefs ==> ctx["alarm_tone"] == VStr("default"))
      && ("usual_wakeup" !in prefs ==> ctx["usual_wakeup"] == VNull)
    ensures intent == SearchFlights ==>
      && ("flight_type" !in prefs ==> ctx["flight_type"] == VStr("any"))
      && (forall k :: k in {"airline_pref", "max_price", "seat_pref"} && k !in prefs ==> ctx[k] == VNull)
  {
    if intent == SetAlarm then
      map["timezone" := GetOr(prefs, "timezone", VStr("UTC")),
          "alarm_tone" := GetOr(prefs, "alarm_tone", VStr("default")),
          "usual_wakeup" := GetOr(prefs, "usual_wakeup", VNull)]
    else if intent == SearchFlights then
      map["airline_pref" := GetOr(prefs, "airline_pref", VNull),
          "max_price" := GetOr(prefs, "max_price", VNull),
          "seat_pref" := GetOr(prefs, "seat_pref", VNull),
          "flight_type" := GetOr(prefs, "flight_type", VStr("any"))]
    else map[]
  }

  /** `_get_recent_conversations`: the user's turns, newest first, at most five. */
  function RecentConversations(turns: seq<Turn>, userId: string): seq<Turn> {
    Take(SortBy(Filter(turns, (t: Turn) => t.userId == userId), (t: Turn) => -t.timestamp), RecentLimit)
  }

  /** The recalled turns are the user's five newest (all of them when there are no more
      than five), newest first: no turn of the user left out is newer than one recalled. */
  lemma {:induction false} RecentConversationsFacts(turns: seq<Turn>, userId: string)
    ensures var r := RecentConversations(turns, userId);
      && var mine := Filter(turns, (t: Turn) => t.userId == userId);
      && |r| == (if |mine| <= RecentLimit then |mine| else RecentLimit)
      && (forall i, j :: 0 <= i < j < |r| ==> r[i].timestamp >= r[j].timestamp)
      && (forall x, y :: x in multiset(mine) - multiset(r) && y in r ==> x.timestamp <= y.timestamp)
      && (forall t :: t in r ==> t in turns && t.userId == userId)
      && (|Filter(turns, (t: Turn) => t.userId == userId)| <= RecentLimit ==>
            forall t :: t in turns && t.userId == userId ==> t in r)
  {
    var mine := Filter(turns, (t: Turn) => t.userId == userId);
    var key := (t: Turn) => -t.timestamp;
    TakeSortByFacts(mine, key, RecentLimit);
    SortByFacts(mine, key);
    SubMultisetMembers(Take(SortBy(mine, key), RecentLimit), mine);
    if |mine| <= RecentLimit {
      SubMultisetMembers(mine, SortBy(mine, key));
    }
  }

  /** What `get_user_context` does to the preference store and what it returns. With the
      store up, the user's first document afterwards is the one in the context (a default
      document is appended when the user had none), and the context carries the recent turns
      and the intent-specific view of those preferences; with the store down, nothing changes
      and the fallback context is returned. */
  function ContextEffect(prefDocs: seq<PrefDoc>, conversations: seq<Turn>, storeUp: bool, userId: string,
                         intent: IntentType, now: int): (r: (seq<PrefDoc>, UserContext))
    ensures !storeUp ==> r == (prefDocs, UserContext(map[], [], None))
    ensures storeUp ==>
      && FindDoc(r.0, userId).Some? && r.0[FindDoc(r.0, userId).value] == r.1.preferences
      && Owns(r.1.preferences, userId)
      && r.1.recentConversations == RecentConversations(conversations, userId)
      && r.1.intentSpecific == Some(IntentSpecific(intent, r.1.preferences))
    ensures FindDoc(prefDocs, userId).Some? ==> r.0 == prefDocs
    ensures FindDoc(prefDocs, userId).None? && storeUp ==>
      r.0 == prefDocs + [DefaultPreferenceDoc(userId, now)] && r.1.preferences == DefaultPreferenceDoc(userId, now)
  {
    if !storeUp then (prefDocs, UserContext(map[], [], None))
    else
      var found := FindDoc(prefDocs, userId);
      var doc := if found.Some? then prefDocs[found.value] else DefaultPreferenceDoc(userId, now);
      var docs := if found.Some? then prefDocs
                  else (FindDocAppend(prefDocs, doc, userId); prefDocs + [doc]);
      (docs, UserContext(doc, RecentConversations(conversations, userId), Some(IntentSpecific(intent, doc))))
  }

  /** A document appended for a user who had none is the one `find_one` returns. */
  lemma FindDocAppend(docs: seq<PrefDoc>, doc: PrefDoc, userId: string)
    requires FindDoc(docs, userId).None? && Owns(doc, userId)
    ensures FindDoc(docs + [doc], userId) == Some(|docs|)
  {
    var r := FindDoc(docs + [doc], userId);
    assert Owns((docs + [doc])[|docs|], userId);
    assert forall i :: 0 <= i < |docs| ==> (docs + [doc])[i] == docs[i];
  }

  class MemoryService {
    /** The preference collection in insertion order. */
    var prefDocs: seq<PrefDoc>
    /** The conversation collection in insertion order. */
    var conversations: seq<Turn>
    /** Whether the store answers; when it does not, every store call raises. */
    const storeUp: bool

    constructor (storeUp: bool)
      ensures prefDocs == [] && conversations == [] && this.storeUp == storeUp
    {
      prefDocs, conversations := [], [];
      this.storeUp := storeUp;
    }

    /** `get_user_context`: the user's preferences, created with defaults when missing, the
        recent turns and the intent-specific view; the fallback context when the store fails. */
    method GetUserContext(userId: string, intent: IntentType, now: int) returns (ctx: UserContext)
      modifies this
      ensures conversations == old(conversations)
      ensures (prefDocs, ctx) == ContextEffect(old(prefDocs), old(conversations), storeUp, userId, intent, now)
      ensures !storeUp ==> ctx == UserContext(map[], [], None) && prefDocs == old(prefDocs)
      ensures storeUp && FindDoc(old(prefDocs), userId).Some? ==>
        var doc := old(prefDocs)[FindDoc(old(prefDocs), userId).value];
        && prefDocs == old(prefDocs)
        && ctx == UserContext(doc, RecentConversations(conversations, userId), Some(IntentSpecific(intent, doc)))
      ensures storeUp && FindDoc(old(prefDocs), userId).None? ==>
        var doc := DefaultPreferenceDoc(userId, now);
        && prefDocs == old(prefDocs) + [doc]
        && ctx == UserContext(doc, RecentConversations(conversations, userId), Some(IntentSpecific(intent, doc)))
    {
      if !storeUp {
        return UserContext(map[], [], None);
      }
      var found := FindDoc(prefDocs, userId);
      var doc;
      if found.Some? {
        doc := prefDocs[found.value];
      } else {
        doc := DefaultPreferenceDoc(userId, now);
        prefDocs := prefDocs + [doc];
      }
      ctx := UserContext(doc, RecentConversations(conversations, userId), Some(IntentSpecific(intent, doc)));
    }

    /** `store_conversation`: appends the turn; a store failure is swallowed. */
    method StoreConversation(userId: string, text: string, intent: string, timestamp: int,
                             response: Option<string> := None)
      modifies this
      ensures prefDocs == old(prefDocs)
      ensures conversations == if storeUp then old(conversations) + [Turn(userId, text, intent, response, timestamp)]
                               else old(conversations)
    {
      if storeUp {
        conversations := conversations + [Turn(userId, text, intent, response, timestamp)];
      }
    }

    /** `update_user_preference`: sets one field of the user's first document, or inserts a
        document holding only the user id and that field; a store failure is swallowed. */
    method UpdateUserPreference(userId: string, key: string, value: Value)
      modifies this
      ensures conversations == old(conversations)
      ensures !storeUp ==> prefDocs == old(prefDocs)
      ensures storeUp && FindDoc(old(prefDocs), userId).Some? ==>
        var i := FindDoc(old(prefDocs), userId).value;
        prefDocs == old(prefDocs)[i := old(prefDocs)[i][key := value]]
      ensures storeUp && FindDoc(old(prefDocs), userId).None? ==>
        prefDocs == old(prefDocs) + [map["user_id" := VStr(userId)][key := value]]
    {
      if !storeUp {
        return;
      }
      var found := FindDoc(prefDocs, userId);
      if found.Some? {
        prefDocs := prefDocs[found.value := prefDocs[found.value][key := value]];
      } else {
        prefDocs := prefDocs + [map["user_id" := VStr(userId)][key := value]];
      }
    }
  }

  /** An update changes only the one field it names: every other field of the document
      keeps its value, and every other document is untouched. */
  lemma UpdateTouchesOneField(docs: seq<PrefDoc>, userId: string, key: string, value: Value, k: string)
    requires FindDoc(docs, userId).Some? && k != key
    ensures var i := FindDoc(docs, userId).value;
      var after := docs[i := docs[i][key := value]];
      && (k in docs[i] <==> k in after[i]) && (k in docs[i] ==> after[i][k] == docs[i][k])
      && after[i][key] == value
      && forall j :: 0 <= j < |docs| && j != i ==> after[j] == docs[j]
  {
  }
}
