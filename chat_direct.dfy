/** The direct chat service: a bounded per-user message log, the message list sent to the
    language model, and the keyword test that decides whether to search the web first. */
module ChatDirect {
  import opened Wrappers
  import opened Text

  /** A log keeps at most this many messages (ten exchanges). */
  const HistoryLimit: nat := 20
  /** At most this many logged messages are sent with a request. */
  const ContextWindow: nat := 10

  const TroubleMessage: string := "I'm having trouble processing your request right now. Please try again."
  /** The exception text raised when a reply without content is logged (`None[:100]`). */
  const NoContentError: string := "'NoneType' object is not subscriptable"
  /** The error of reading `total_tokens` from a reply that reports no usage. */
  const NoUsageError: string := "'NoneType' object has no attribute 'total_tokens'"

  const SearchKeywords: seq<string> := [
    "news", "today", "latest", "current", "recent", "weather",
    "happening", "now", "update", "what is", "who is", "stock",
    "price", "score", "match", "game", "event"]

  datatype Role = System | User | Assistant

  /** A chat message. A model reply may carry no content, and is logged that way. */
  datatype Message = Message(role: Role, content: Option<string>)

  /** `s[-n:]`: the last `n` elements, or all of them when there are fewer. */
  function LastN<T>(s: seq<T>, n: nat): (r: seq<T>)
    ensures |r| == if |s| <= n then |s| else n
    ensures r == s[|s| - |r|..]
  {
    if |s| <= n then s else s[|s| - n..]
  }

  /** Some keyword occurs in `s`. */
  function AnyKeyword(keywords: seq<string>, s: string): (r: bool)
    ensures r <==> exists i :: 0 <= i < |keywords| && Contains(s, keywords[i])
  {
    if keywords == [] then false
    else
      var rest := AnyKeyword(keywords[1..], s);
      assert rest <==> exists i :: 1 <= i < |keywords| && Contains(s, keywords[i]) by {
        forall i | 1 <= i < |keywords| ensures keywords[i] == keywords[1..][i - 1] { }
        if rest {
          var j :| 0 <= j < |keywords[1..]| && Contains(s, keywords[1..][j]);
          assert keywords[j + 1] == keywords[1..][j];
        }
      }
      Contains(s, keywords[0]) || rest
  }

  /** `_should_use_web_search`: some listed keyword occurs in the lower-cased text. */
  function ShouldUseWebSearch(text: string): (r: bool)
    ensures r <==> exists i :: 0 <= i < |SearchKeywords| && Contains(Lower(text), SearchKeywords[i])
  {
    AnyKeyword(SearchKeywords, Lower(text))
  }

  /** A question about the weather, phrased in lower case, sends a web search first. */
  lemma WeatherQuestionSearches(before: string, after: string)
    requires Lower(before + "weather" + after) == before + "weather" + after
    ensures ShouldUseWebSearch(before + "weather" + after)
  {
    ContainsMiddle(before, "weather", after);
    assert SearchKeywords[5] == "weather";
  }

  const SystemBase: string :=
    "You are JARVIS, an intelligent AI assistant created to help users with various tasks.\n"
    + "You are helpful, conversational, and knowledgeable. \n"
    + "- For news requests, provide current, relevant information from the search results\n"
    + "- For general questions, give accurate and concise answers\n"
    + "- For tasks like alarms or reminders, acknowledge the request conversationally\n"
    + "- Keep responses natural and friendly\n"
    + "- Current date: "

  const WebSentence: string :=
    "\n\nYou have access to real-time web search results below. Use this information to provide accurate, up-to-date answers."

  /** `if web_search_results:` — present and non-empty. */
  predicate HasResults(web: Option<string>) {
    web.Some? && web.value != ""
  }

  /** The logged messages of a user, none for a user without a log. */
  function LogOf(history: map<string, seq<Message>>, userId: string): seq<Message> {
    if userId in history then history[userId] else []
  }

  /** `_build_messages`: the system message, then (with context) the last ten logged
      messages, then the user's message, which carries the web results when there are any. */
  function BuildMessages(history: map<string, seq<Message>>, userId: string, text: string, includeContext: bool,
                         web: Option<string>, today: string): (ms: seq<Message>)
    ensures 2 <= |ms| <= ContextWindow + 2
    ensures ms[0].role == System && ms[|ms| - 1].role == User
    ensures ms[0].content == Some(SystemBase + today + (if HasResults(web) then WebSentence else ""))
    ensures ms[|ms| - 1].content == Some(if HasResults(web) then text + "\n" + web.value else text)
    ensures ms[1..|ms| - 1] == if includeContext then LastN(LogOf(history, userId), ContextWindow) else []
  {
    var system := Message(System, Some(SystemBase + today + (if HasResults(web) then WebSentence else "")));
    var recent := if includeContext && userId in history then LastN(history[userId], ContextWindow) else [];
    var user := Message(User, Some(if HasResults(web) then text + "\n" + web.value else text));
    [system] + recent + [user]
  }

  /** Logged messages alternate user, assistant, user, ...; the log holds whole exchanges
      and at most `HistoryLimit` messages. */
  ghost predicate WellFormedLog(log: seq<Message>) {
    && |log| <= HistoryLimit
    && |log| % 2 == 0
    && forall i :: 0 <= i < |log| ==> log[i].role == (if i % 2 == 0 then User else Assistant)
  }

  /** The log after one exchange: the pair appended, then cut to the last twenty. */
  function AfterExchange(log: seq<Message>, userText: string, reply: Option<string>): seq<Message> {
    LastN(log + [Message(User, Some(userText)), Message(Assistant, reply)], HistoryLimit)
  }

  /** Appending an exchange keeps a log well formed, ends it with that exchange, and drops
      nothing while the limit is not reached. */
  lemma {:induction false} AfterExchangeFacts(log: seq<Message>, userText: string, reply: Option<string>)
    requires WellFormedLog(log)
    ensures var after := AfterExchange(log, userText, reply);
      && WellFormedLog(after)
      && after[|after| - 2..] == [Message(User, Some(userText)), Message(Assistant, reply)]
      && (|log| + 2 <= HistoryLimit ==> after == log + [Message(User, Some(userText)), Message(Assistant, reply)])
  {
    var pair := [Message(User, Some(userText)), Message(Assistant, reply)];
    var grown := log + pair;
    var after := AfterExchange(log, userText, reply);
    if |grown| <= HistoryLimit {
      assert after == grown;
      forall i | 0 <= i < |grown| ensures grown[i].role == (if i % 2 == 0 then User else Assistant) {
        if i >= |log| {
          assert grown[i] == pair[i - |log|];
        }
      }
    } else {
      assert |log| == HistoryLimit;
      assert after == grown[2..];
      forall i | 0 <= i < |after| ensures after[i].role == (if i % 2 == 0 then User else Assistant) {
        assert after[i] == grown[i + 2];
        if i + 2 >= |log| {
          assert grown[i + 2] == pair[i + 2 - |log|];
        }
      }
    }
  }

  /** The tail of a well-formed log kept for a request starts with a user message and
      alternates from there. */
  lemma {:induction false} RecentAlternates(log: seq<Message>)
    requires WellFormedLog(log)
    ensures var recent := LastN(log, ContextWindow);
      |recent| % 2 == 0 && forall i :: 0 <= i < |recent| ==> recent[i].role == (if i % 2 == 0 then User else Assistant)
  {
    var recent := LastN(log, ContextWindow);
    var start := |log| - |recent|;
    assert start % 2 == 0;
    forall i | 0 <= i < |recent| ensures recent[i].role == (if i % 2 == 0 then User else Assistant) {
      assert recent[i] == log[start + i];
    }
  }

  /** With a well-formed log, the messages sent are the system message followed by strictly
      alternating user and assistant messages, ending with the user's. */
  lemma {:induction false} MessagesAlternate(history: map<string, seq<Message>>, userId: string, text: string,
                                              includeContext: bool, web: Option<string>, today: string)
    requires userId in history ==> WellFormedLog(history[userId])
    ensures var ms := BuildMessages(history, userId, text, includeContext, web, today);
      forall i :: 1 <= i < |ms| ==> ms[i].role == (if i % 2 == 1 then User else Assistant)
  {
    var ms := BuildMessages(history, userId, text, includeContext, web, today);
    if includeContext {
      assert WellFormedLog(LogOf(history, userId));
      RecentAlternates(LogOf(history, userId));
    }
    FramedAlternates(ms);
  }

  /** A user-ending message list whose middle alternates from a user message alternates
      from index 1 on. */
  lemma FramedAlternates(ms: seq<Message>)
    requires |ms| >= 2 && ms[|ms| - 1].role == User
    requires var recent := ms[1..|ms| - 1];
      |recent| % 2 == 0 && forall i :: 0 <= i < |recent| ==> recent[i].role == (if i % 2 == 0 then User else Assistant)
    ensures forall i :: 1 <= i < |ms| ==> ms[i].role == (if i % 2 == 1 then User else Assistant)
  {
    var recent := ms[1..|ms| - 1];
    forall i | 1 <= i < |ms| ensures ms[i].role == (if i % 2 == 1 then User else Assistant) {
      if i < |ms| - 1 {
        assert ms[i] == recent[i - 1];
      }
    }
  }

  /** What `process_request` returns. */
  datatype DirectResult =
    | DirectSuccess(response: Option<string>, tokensUsed: nat, webSearchUsed: bool)
    | DirectError(message: string, error: string)

  /** The language model's answer to a message list: a raised error, or a reply with its
      content (possibly none) and its usage record's token count (none when the reply
      carries no usage record). */
  datatype ChatReply =
    | ChatFailed(error: string)
    | ChatAnswered(content: Option<string>, tokensUsed: Option<nat>)

  class ChatDirectService {
    /** Per-user message logs. */
    var conversationHistory: map<string, seq<Message>>
    /** Whether a web-search client was configured and imported. */
    const webSearchAvailable: bool

    ghost predicate Valid()
      reads this
    {
      forall u :: u in conversationHistory ==> WellFormedLog(conversationHistory[u])
    }

    constructor (webSearchAvailable: bool)
      ensures Valid() && conversationHistory == map[] && this.webSearchAvailable == webSearchAvailable
    {
      conversationHistory := map[];
      this.webSearchAvailable := webSearchAvailable;
    }

    /** `_update_conversation_history`: the exchange is appended to the user's log (created
        empty if needed), which is then cut to its last twenty messages. */
    method UpdateConversationHistory(userId: string, userText: string, reply: Option<string>)
      requires Valid()
      modifies this
      ensures Valid()
      ensures conversationHistory ==
        old(conversationHistory)[userId := AfterExchange(LogOf(old(conversationHistory), userId), userText, reply)]
    {
      if userId !in conversationHistory {
        conversationHistory := conversationHistory[userId := []];
      }
      var log := conversationHistory[userId] + [Message(User, Some(userText)), Message(Assistant, reply)];
      if |log| > HistoryLimit {
        log := log[|log| - HistoryLimit..];
      }
      AfterExchangeFacts(LogOf(old(conversationHistory), userId), userText, reply);
      conversationHistory := conversationHistory[userId := log];
    }

    /** `clear_history`: the user's log is removed; other users' logs are untouched. */
    method ClearHistory(userId: string)
      requires Valid()
      modifies this
      ensures Valid()
      ensures conversationHistory == old(conversationHistory) - {userId}
      ensures userId !in old(conversationHistory) ==> conversationHistory == old(conversationHistory)
    {
      if userId in conversationHistory {
        conversationHistory := conversationHistory - {userId};
      }
    }

    /** `process_request`. The web is searched only when asked, available and the text has a
        keyword; the log grows only with context on. A failed model call leaves the log as it
        was. A reply without content, or without a usage record, is logged before the error
        it then raises, so that request fails after changing the log. */
    method ProcessRequest(userId: string, text: string, includeContext: bool, useWebSearch: bool, today: string,
                          search: string -> Option<string>, chat: seq<Message> -> ChatReply)
      returns (r: DirectResult)
      requires Valid()
      modifies this
      ensures Valid()
      ensures var web := if useWebSearch && webSearchAvailable && ShouldUseWebSearch(text) then search(text) else None;
        var reply := chat(BuildMessages(old(conversationHistory), userId, text, includeContext, web, today));
        var logged := old(conversationHistory)[userId := AfterExchange(LogOf(old(conversationHistory), userId), text,
                                                                      if reply.ChatAnswered? then reply.content else None)];
        && (reply.ChatFailed? ==>
              r == DirectError(TroubleMessage, reply.error) && conversationHistory == old(conversationHistory))
        && (reply.ChatAnswered? ==>
              conversationHistory == (if includeContext then logged else old(conversationHistory)))
        && (reply.ChatAnswered? && reply.content.Some? && reply.tokensUsed.Some? ==>
              r == DirectSuccess(reply.content, reply.tokensUsed.value, web.Some?))
        && (reply.ChatAnswered? && reply.content.Some? && reply.tokensUsed.None? ==>
              r == DirectError(TroubleMessage, NoUsageError))
        && (reply.ChatAnswered? && reply.content.None? ==>
              r == DirectError(TroubleMessage, NoContentError))
    {
      var web: Option<string> := None;
      if useWebSearch && webSearchAvailable && ShouldUseWebSearch(text) {
        web := search(text);
      }
      var messages := BuildMessages(conversationHistory, userId, text, includeContext, web, today);
      var reply := chat(messages);
      if reply.ChatFailed? {
        return DirectError(TroubleMessage, reply.error);
      }
      if includeContext {
        UpdateConversationHistory(userId, text, reply.content);
      }
      if reply.content.None? {
        return DirectError(TroubleMessage, NoContentError);
      }
      if reply.tokensUsed.None? {
        return DirectError(TroubleMessage, NoUsageError);
      }
      r := DirectSuccess(reply.content, reply.tokensUsed.value, web.Some?);
    }
  }
}
