/** `extract_content_with_ai` of src/ai_utils.py: an empty-input guard, a
    12000-character prefix of the page, one language-model call and a record
    that reports either the reply or the error, under a three-attempt retry
    decorator. The model, the clock and the prompt wording are parameters. */
module AiUtils {
  import opened PyJson
  import opened LlmInterface

  const MaxChars: nat := 12000

  /** What the prompt carries: the user's request and the (truncated) page. */
  datatype Prompt = Prompt(userRequest: string, content: string)

  /** A result record and the prompts the model was called with, in order. */
  datatype Extraction = Extraction(record: seq<Field>, calls: seq<Prompt>)

  /** `s[:max_chars] if len(s) > max_chars else s`. */
  function Truncate(s: string): (r: string)
    ensures |r| == if |s| > MaxChars then MaxChars else |s|
    ensures r == s[..|r|]
  {
    if |s| > MaxChars then s[..MaxChars] else s
  }

  /** `{"extracted_content": "", "error": message}`. */
  function ErrorRecord(message: string): (r: seq<Field>)
    ensures Get(r, "extracted_content") == Some(JStr(""))
    ensures Get(r, "error") == Some(JStr(message))
    ensures "timestamp" !in Keys(r)
  {
    [Field("extracted_content", JStr("")), Field("error", JStr(message))]
  }

  /** The decorated function's body; `llm` answers a prompt and `now` is
      `datetime.now().isoformat()`. It never raises: every failure becomes an
      error record. */
  function Body(html: string, userRequest: string, llm: Prompt -> Reply, now: string): (r: Outcome<Extraction>)
    ensures r.Returned?
    ensures html == [] <==> r.value.calls == []
    ensures html != [] ==> r.value.calls == [Prompt(userRequest, Truncate(html))]
    ensures html == [] ==> r.value.record == ErrorRecord("No content to analyze")
    ensures html != [] && llm(Prompt(userRequest, Truncate(html))).Failed? ==>
      r.value.record == ErrorRecord(llm(Prompt(userRequest, Truncate(html))).message)
  {
    if html == [] then Returned(Extraction(ErrorRecord("No content to analyze"), []))
    else
      var p := Prompt(userRequest, Truncate(html));
      match llm(p)
      case Failed(message) => Returned(Extraction(ErrorRecord(message), [p]))
      case Answered(text) =>
        Returned(Extraction([Field("extracted_content", JStr(text)), Field("timestamp", JStr(now))], [p]))
  }

  /** The retry decorator over a body whose `attempts` say what each of its
      three calls would do: the first call that returns wins; when all three
      raise, the callback builds an error record from the last exception.
      The result carries the number of calls made. */
  function Retry(attempts: seq<Outcome<Extraction>>): (r: (Extraction, nat))
    requires |attempts| == 3
    ensures 1 <= r.1 <= 3
    ensures attempts[r.1 - 1].Returned? ==> r.0 == attempts[r.1 - 1].value
    ensures forall i :: 0 <= i < r.1 - 1 ==> attempts[i].Raised?
    ensures r.1 < 3 ==> attempts[r.1 - 1].Returned?
    ensures attempts[r.1 - 1].Raised? ==> r.0.record == ErrorRecord(attempts[2].error)
  {
    if attempts[0].Returned? then (attempts[0].value, 1)
    else if attempts[1].Returned? then (attempts[1].value, 2)
    else if attempts[2].Returned? then (attempts[2].value, 3)
    else (Extraction(ErrorRecord(attempts[2].error), []), 3)
  }

  /** `extract_content_with_ai(html_content, user_request)`. */
  function ExtractContentWithAi(html: string, userRequest: string, llm: Prompt -> Reply, now: string): (r: Extraction)
    ensures |r.calls| <= 1
  {
    var b := Body(html, userRequest, llm, now);
    Retry([b, b, b]).0
  }

  /** Because the body never raises, the decorator calls it once, so the
      model is called at most once, with the truncated page. */
  lemma SingleAttempt(html: string, userRequest: string, llm: Prompt -> Reply, now: string)
    ensures var b := Body(html, userRequest, llm, now);
      Retry([b, b, b]).1 == 1 && ExtractContentWithAi(html, userRequest, llm, now) == b.value
  {
  }

  /** Empty content gives the "No content to analyze" record and no call. */
  lemma EmptyContent(userRequest: string, llm: Prompt -> Reply, now: string)
    ensures ExtractContentWithAi([], userRequest, llm, now) ==
      Extraction([Field("extracted_content", JStr("")), Field("error", JStr("No content to analyze"))], [])
  {
  }

  /** A reply gives `extracted_content` (empty when the reply is empty) and
      a timestamp, and no `error` key. */
  lemma Success(html: string, userRequest: string, llm: Prompt -> Reply, now: string)
    requires html != [] && llm(Prompt(userRequest, Truncate(html))).Answered?
    ensures var rec := ExtractContentWithAi(html, userRequest, llm, now).record;
      Get(rec, "extracted_content") == Some(JStr(llm(Prompt(userRequest, Truncate(html))).text)) &&
      Get(rec, "timestamp") == Some(JStr(now)) && "error" !in Keys(rec)
  {
    var rec := ExtractContentWithAi(html, userRequest, llm, now).record;
    assert rec[1..][1..] == [];
  }

  /** A failed call gives an empty `extracted_content` and the error message. */
  lemma Failure(html: string, userRequest: string, llm: Prompt -> Reply, now: string)
    requires html != [] && llm(Prompt(userRequest, Truncate(html))).Failed?
    ensures var rec := ExtractContentWithAi(html, userRequest, llm, now).record;
      Get(rec, "extracted_content") == Some(JStr("")) &&
      Get(rec, "error") == Some(JStr(llm(Prompt(userRequest, Truncate(html))).message)) &&
      "timestamp" !in Keys(rec)
  {
  }

  /** Pages that agree on their first 12000 characters are sent identically. */
  lemma TruncateCommonPrefix(a: string, b: string)
    requires |a| >= MaxChars && |b| >= MaxChars && a[..MaxChars] == b[..MaxChars]
    ensures Truncate(a) == Truncate(b)
  {
  }
}
