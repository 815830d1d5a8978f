/** The news service: the prompt chosen for a news category, and the failure reply. */
module News {
  import opened Wrappers
  import opened Text

  const FetchFailedMessage: string := "I'm having trouble fetching the news right now. Please try again later."
  const Closing: string := "Keep it conversational and concise (under 300 words)."

  /** The five prompt templates. */
  datatype Template = General | Technology | Sports | Business | Other

  /** The category's template: two names each for general, technology and business news. */
  function TemplateFor(category: string): (t: Template)
    ensures t == General <==> category in {"general", "today"}
    ensures t == Technology <==> category in {"tech", "technology"}
    ensures t == Sports <==> category == "sports"
    ensures t == Business <==> category in {"business", "finance"}
  {
    if category == "general" || category == "today" then General
    else if category == "tech" || category == "technology" then Technology
    else if category == "sports" then Sports
    else if category == "business" || category == "finance" then Business
    else Other
  }

  /** The date sentence every prompt opens with. */
  function Opening(today: string): string {
    "Today is " + today + "."
  }

  /** Everything up to the count. */
  function Lead(today: string): string {
    Opening(today) + " Please provide a brief summary of the top "
  }

  /** What follows the category's name in the prompt of a category without a template. */
  const OtherTail: string := " news headlines for today.\n" + Closing

  /** Everything after the count. */
  function Rest(t: Template, category: string): string {
    match t
    case General =>
      " news headlines for today. \n"
      + "Include a mix of important global news, technology, and interesting stories. \n"
      + "Format: Start with a brief overview, then list key headlines.\n" + Closing
    case Technology =>
      " technology news stories for today.\n"
      + "Focus on: AI developments, tech company news, new products, cybersecurity, and innovation.\n"
      + "Format: Brief overview followed by key headlines.\n" + Closing
    case Sports =>
      " sports news stories for today.\n"
      + "Include: major game results, player news, upcoming matches, and significant sports events.\n"
      + "Format: Brief overview followed by key headlines.\n" + Closing
    case Business =>
      " business and finance news stories for today.\n"
      + "Include: market updates, company news, economic indicators, and major business developments.\n"
      + "Format: Brief overview followed by key headlines.\n" + Closing
    case Other =>
      (" " + category) + OtherTail
  }

  /** `_create_news_prompt`. */
  function NewsPrompt(category: string, count: int, today: string): string {
    Lead(today) + IntToString(count) + Rest(TemplateFor(category), category)
  }

  /** Synonymous categories get the very same prompt. */
  lemma SynonymsShareTemplate(count: int, today: string)
    ensures NewsPrompt("general", count, today) == NewsPrompt("today", count, today)
    ensures NewsPrompt("tech", count, today) == NewsPrompt("technology", count, today)
    ensures NewsPrompt("business", count, today) == NewsPrompt("finance", count, today)
  {
  }

  /** Every prompt opens with the date sentence and asks for `count` items. */
  lemma {:induction false} PromptOpensWithDate(category: string, count: int, today: string)
    ensures OccursAt(NewsPrompt(category, count, today), Opening(today), 0)
    ensures Contains(NewsPrompt(category, count, today), IntToString(count))
  {
    var lead := Lead(today);
    var rest := Rest(TemplateFor(category), category);
    PrefixOccurs(Opening(today), " Please provide a brief summary of the top ");
    PrefixExtend(lead, IntToString(count), Opening(today));
    PrefixExtend(lead + IntToString(count), rest, Opening(today));
    ContainsMiddle(lead, IntToString(count), rest);
  }

  /** A category without a template of its own is named in its prompt. */
  lemma {:induction false} OtherCategoryNamed(category: string, count: int, today: string)
    requires TemplateFor(category) == Other
    ensures Contains(NewsPrompt(category, count, today), category)
  {
    ContainsSelf(category);
    ContainsExtend(category, " ", category);
    ContainsExtend(" " + category, OtherTail, category);
    ContainsExtend(Rest(Other, category), Lead(today) + IntToString(count), category);
  }

  /** What the language model did with the prompt: raised, or replied (possibly without content). */
  datatype NewsReply = NewsFailed | NewsAnswered(content: Option<string>)

  /** What `get_news` returns. */
  datatype NewsResult =
    | NewsSuccess(category: string, date: string, summary: Option<string>)
    | NewsError(message: string)

  /** `get_news`: the model's summary for the category's prompt, or the fixed apology when
      the call fails. */
  function GetNews(userId: string, category: string, count: int, today: string, ask: string -> NewsReply): (r: NewsResult)
    ensures ask(NewsPrompt(category, count, today)).NewsFailed? <==> r == NewsError(FetchFailedMessage)
    ensures ask(NewsPrompt(category, count, today)).NewsAnswered? ==>
      r == NewsSuccess(category, today, ask(NewsPrompt(category, count, today)).content)
  {
    match ask(NewsPrompt(category, count, today))
    case NewsFailed => NewsError(FetchFailedMessage)
    case NewsAnswered(content) => NewsSuccess(category, today, content)
  }
}
