/** The `/search` command (src/commands/search.ts): validates the query, asks the
    search-grounded model once, and shapes its answer or its failure into a reply.
    The model client's presence and the call's outcome are inputs. */
module Search {
  import opened JsText

  /** The outcome of the one `generateContent` call: a response whose `text` may be
      missing, or a thrown error with an optional HTTP status and an optional message. */
  datatype Response = Answered(text: Option<string>) | Failed(status: Option<int>, message: Option<string>)

  /** What the command sends: an early reply (before deferring), an edit of the deferred
      reply, or the result embed with its question field and description. */
  datatype Reply = Early(text: string) | Edited(text: string) | Result(question: string, answer: string)

  const MaxQueryLength := 512
  const MaxAnswerLength := 1900
  const MaxFieldLength := 1024
  const TruncatedNote := "\n\n_(response truncated)_"

  const UnavailableText := "\U{1F512} Search is unavailable: missing GEMINI_API_KEY configuration."
  const NoQueryText := "\U{274C} Please provide something to search."
  const TooLongText := "\U{274C} Search query too long (>512 characters)."
  const NothingFoundText := "\U{1F937} Sorry, I couldn't find anything useful."
  const RateLimitText := "Rate limit hit. Please try again in a bit."
  const UnexpectedText := "Unexpected error while searching."

  /** The trimmed query option, if it was given. */
  function Query(raw: Option<string>): (q: Option<string>)
    ensures q.Some? <==> raw.Some?
    ensures q.Some? ==> q.value == Trim(raw.value)
  {
    if raw.Some? then Some(Trim(raw.value)) else None
  }

  /** The command calls the model: a client exists and the trimmed query is non-empty
      and at most 512 characters long. */
  predicate Asks(hasClient: bool, raw: Option<string>)
  {
    hasClient && Truthy(Query(raw)) && |Query(raw).value| <= MaxQueryLength
  }

  /** The description: the trimmed text, cut to 1900 characters with a note when longer. */
  function AnswerBody(text: string): (a: string)
    ensures |text| <= MaxAnswerLength ==> a == text
    ensures |text| > MaxAnswerLength ==> a == text[..MaxAnswerLength] + TruncatedNote
    ensures |a| <= MaxAnswerLength + |TruncatedNote|
  {
    if |text| > MaxAnswerLength then text[..MaxAnswerLength] + TruncatedNote else text
  }

  /** The "Question" field: the query, shortened with "..." past 1024 characters. */
  function QuestionField(query: string): (f: string)
    ensures |f| <= MaxFieldLength
    ensures |query| <= MaxFieldLength ==> f == query
    ensures |query| > MaxFieldLength ==> f == query[..MaxFieldLength - 3] + "..."
  {
    Ellipsize(query, MaxFieldLength, MaxFieldLength - 3)
  }

  /** The failure reason: the rate-limit line for status 429, else the error's message,
      else a stock line. */
  function FailureReason(status: Option<int>, message: Option<string>): (r: string)
    ensures status == Some(429) ==> r == RateLimitText
    ensures status != Some(429) && Truthy(message) ==> r == message.value
    ensures status != Some(429) && !Truthy(message) ==> r == UnexpectedText
  {
    if status == Some(429) then RateLimitText else OrElse(message, Some(UnexpectedText)).value
  }

  /** `handleSearch`. `response` is what the model call yields; it is used only when the
      command asks. */
  function HandleSearch(hasClient: bool, raw: Option<string>, response: Response): (r: Reply)
    ensures r.Early? <==> !Asks(hasClient, raw)
    ensures !hasClient ==> r == Early(UnavailableText)
    ensures hasClient && !Truthy(Query(raw)) ==> r == Early(NoQueryText)
    ensures hasClient && Truthy(Query(raw)) && |Query(raw).value| > MaxQueryLength ==> r == Early(TooLongText)
    ensures Asks(hasClient, raw) && response.Answered? ==>
              var text := if response.text.Some? then Trim(response.text.value) else "";
              (text == "" ==> r == Edited(NothingFoundText))
              && (text != "" ==> r == Result(QuestionField(Query(raw).value), AnswerBody(text)))
    ensures Asks(hasClient, raw) && response.Failed? ==>
              r == Edited("\U{274C} Search failed: " + FailureReason(response.status, response.message))
  {
    if !hasClient then Early(UnavailableText)
    else
      var query := Query(raw);
      if !Truthy(query) then Early(NoQueryText)
      else if |query.value| > MaxQueryLength then Early(TooLongText)
      else match response
        case Failed(status, message) => Edited("\U{274C} Search failed: " + FailureReason(status, message))
        case Answered(t) =>
          var text := if t.Some? then Trim(t.value) else "";
          if text == "" then Edited(NothingFoundText)
          else Result(QuestionField(query.value), AnswerBody(text))
  }

  /** Because a query past 512 characters is refused first, the question field always
      shows the whole trimmed query: its own shortening never applies. */
  lemma QuestionFieldIsQuery(hasClient: bool, raw: Option<string>, response: Response)
    requires HandleSearch(hasClient, raw, response).Result?
    ensures HandleSearch(hasClient, raw, response).question == Query(raw).value
  {
  }

  /** A shown answer is never empty and never longer than 1900 characters plus the
      note, and an answer that fits is shown whole. */
  lemma AnswerBounds(hasClient: bool, raw: Option<string>, response: Response)
    requires HandleSearch(hasClient, raw, response).Result?
    ensures var a := HandleSearch(hasClient, raw, response).answer;
            a != "" && |a| <= MaxAnswerLength + |TruncatedNote|
            && (response.text.Some? && |Trim(response.text.value)| <= MaxAnswerLength ==>
                  a == Trim(response.text.value))
  {
  }
}
