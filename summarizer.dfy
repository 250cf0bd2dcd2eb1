/** The summarizer: best-effort extraction of a JSON object from the model's reply, and the
    retry loop that asks the model for a summary until one parses and validates against the
    schema inferred from the template.

    The model call, JSON parsing and the text of validation errors are oracles; validation
    itself is `TemplateSchema.Conforms`. */
module Summarizer {
  import opened Wrappers
  import opened Text
  import opened DomainModels
  import opened OllamaChatbot
  import opened TemplateSchema

  // ----- _extract_json -----

  /** `_extract_json`: the stripped reply when it already looks like an object, otherwise the
      span from its first "{" to its last "}" when that span exists, otherwise the stripped
      reply. */
  function ExtractJson(text: string): (r: string)
    ensures var t := Strip(text, PyIsSpace);
      exists k | 0 <= k <= |t| - |r| :: OccursAt(t, r, k)
  {
    ExtractFromStripped(Strip(text, PyIsSpace))
  }

  /** The choice `_extract_json` makes once the reply is stripped. */
  function ExtractFromStripped(t: string): (r: string)
    ensures exists k | 0 <= k <= |t| - |r| :: OccursAt(t, r, k)
  {
    if StartsWithChar(t, '{') && EndsWithChar(t, '}') then
      assert OccursAt(t, t, 0);
      t
    else
      var start := Find(t, '{');
      var end := RFind(t, '}');
      if start != -1 && end != -1 && end > start then
        assert OccursAt(t, t[start..end + 1], start);
        t[start..end + 1]
      else
        assert OccursAt(t, t, 0);
        t
  }

  /** When the stripped reply is not already braced but holds a "{" before a later "}", the
      result is the span from the first "{" to the last "}", braces included. */
  lemma ExtractJsonSpan(text: string, t: string, start: int, end: int)
    requires t == Strip(text, PyIsSpace) && !(StartsWithChar(t, '{') && EndsWithChar(t, '}'))
    requires start == Find(t, '{') && end == RFind(t, '}') && 0 <= start < end
    ensures ExtractJson(text) == t[start..end + 1]
    ensures StartsWithChar(t[start..end + 1], '{') && EndsWithChar(t[start..end + 1], '}')
  {
    assert ExtractJson(text) == ExtractFromStripped(t);
    SpanIsBraced(t, start, end);
  }

  /** A span from a "{" to a "}" starts and ends with them. */
  lemma SpanIsBraced(t: string, start: nat, end: nat)
    requires start < end < |t| && t[start] == '{' && t[end] == '}'
    ensures StartsWithChar(t[start..end + 1], '{') && EndsWithChar(t[start..end + 1], '}')
  {
  }

  /** A reply that is braced once its surrounding whitespace is stripped gives that stripped
      reply. */
  lemma ExtractJsonBraced(text: string)
    requires var t := Strip(text, PyIsSpace); StartsWithChar(t, '{') && EndsWithChar(t, '}')
    ensures ExtractJson(text) == Strip(text, PyIsSpace)
  {
  }

  /** Without such a pair of braces the result is the stripped reply. */
  lemma ExtractJsonFallback(text: string)
    requires var t := Strip(text, PyIsSpace);
      '{' !in t || '}' !in t || RFind(t, '}') <= Find(t, '{')
    ensures ExtractJson(text) == Strip(text, PyIsSpace)
  {
  }

  /** Extracting twice gives what extracting once gave. */
  lemma ExtractJsonIdempotent(text: string)
    ensures ExtractJson(ExtractJson(text)) == ExtractJson(text)
  {
    var t := Strip(text, PyIsSpace);
    var r := ExtractJson(text);
    if StartsWithChar(t, '{') && EndsWithChar(t, '}') {
      assert r == t;
      StripIdempotent(text, PyIsSpace);
      assert Strip(r, PyIsSpace) == r;
    } else if Find(t, '{') != -1 && RFind(t, '}') != -1 && RFind(t, '}') > Find(t, '{') {
      BracedIsFixed(r);
    } else {
      assert r == t;
      StripIdempotent(text, PyIsSpace);
    }
  }

  /** A string that starts with "{" and ends with "}" is its own extraction. */
  lemma BracedIsFixed(r: string)
    requires StartsWithChar(r, '{') && EndsWithChar(r, '}')
    ensures ExtractJson(r) == r
  {
    StripUnpadded(r, PyIsSpace);
  }

  // ----- summarize -----

  const DefaultMaxRetries := 2
  const DefaultTimeoutSeconds := 120

  /** The oracles `summarize` depends on: the model's reply to the `n`-th request, JSON
      parsing (an error message on failure), the text of a validation error, and the schema
      serialised as text for the prompt. */
  datatype Oracles = Oracles(
    chat: (nat, seq<ChatTurn>) -> string,
    loads: string -> Result<Json, string>,
    validationError: (Json, Json) -> string,
    dumps: Json -> string)

  /** A transcript line: the role in capitals, a colon and the content. */
  function TranscriptLine(m: Message): string {
    (match m.role
     case System => "SYSTEM"
     case Patient => "PATIENT"
     case Assistant => "ASSISTANT") + ": " + m.content
  }

  function SystemPrompt(schemaText: string): string {
    "You are a clinical summarization assistant. "
    + "Return ONLY valid JSON. No markdown, no commentary.\n"
    + "The JSON MUST match the provided JSON Schema exactly:\n"
    + schemaText
  }

  function UserPrompt(transcript: seq<Message>): string {
    "Summarize the following transcript into the JSON structure required by the schema.\n\n"
    + "Transcript:\n"
    + Join(seq(|transcript|, i requires 0 <= i < |transcript| => TranscriptLine(transcript[i])), "\n") + "\n"
  }

  function RepairPrompt(lastError: string, raw: string): string {
    "Your previous output was invalid. Fix it.\n"
    + "Rules:\n"
    + "- Output ONLY JSON\n"
    + "- Must match schema exactly (no extra keys)\n"
    + "- Ensure valid JSON\n\n"
    + "Validation/parse error:\n" + lastError + "\n\n"
    + "Invalid output:\n" + raw + "\n"
  }

  /** Python's `str(x)` of an optional error message. */
  function ShowError(e: Option<string>): string {
    if e.Some? then e.value else "None"
  }

  function FinalError(lastError: Option<string>): string {
    "Could not produce valid summary JSON after retries. Last error: " + ShowError(lastError)
  }

  /** How many requests `range(max_retries + 1)` allows (none when `max_retries` is below -1). */
  function AttemptCount(maxRetries: int): nat {
    if maxRetries + 1 < 0 then 0 else maxRetries + 1
  }

  /** Parsing and validating one candidate: the data, or the error message. */
  function Check(o: Oracles, schema: Json, candidate: string): Result<Json, string> {
    match o.loads(candidate)
    case Err(e) => Err(e)
    case Ok(data) => if Conforms(data, schema) then Ok(data) else Err(o.validationError(data, schema))
  }

  /** The attempts from number `attempt` on, with `messages` to send next and the error of the
      previous attempt. */
  function Attempts(o: Oracles, schema: Json, systemPrompt: string, attempt: nat, count: nat,
                    messages: seq<ChatTurn>, lastError: Option<string>): Result<Json, string>
    decreases count - attempt
  {
    if attempt >= count then Err(FinalError(lastError))
    else
      var raw := o.chat(attempt, messages);
      match Check(o, schema, ExtractJson(raw))
      case Ok(data) => Ok(data)
      case Err(e) =>
        Attempts(o, schema, systemPrompt, attempt + 1, count,
                 [ChatTurn("system", systemPrompt), ChatTurn("user", RepairPrompt(e, raw))], Some(e))
  }

  /** The first request: the system prompt with the schema, and the transcript. */
  function FirstMessages(o: Oracles, schema: Json, transcript: seq<Message>): seq<ChatTurn> {
    [ChatTurn("system", SystemPrompt(o.dumps(schema))), ChatTurn("user", UserPrompt(transcript))]
  }

  function SummarizeSpec(o: Oracles, maxRetries: int, transcript: seq<Message>, template: Json): Result<Json, string> {
    var schema := TemplateToJsonSchema(template);
    Attempts(o, schema, SystemPrompt(o.dumps(schema)), 0, AttemptCount(maxRetries),
             FirstMessages(o, schema, transcript), None)
  }

  /** Whatever `summarize` returns is valid against the template's schema, and it is the
      parsed reply of some request within the allowed number. */
  lemma {:induction false} AttemptsSucceedOnlyWithValidData(o: Oracles, schema: Json, systemPrompt: string, attempt: nat,
                                                            count: nat, messages: seq<ChatTurn>, lastError: Option<string>)
    ensures var r := Attempts(o, schema, systemPrompt, attempt, count, messages, lastError);
      r.Ok? ==>
        Conforms(r.value, schema) &&
        exists n: nat, ms: seq<ChatTurn> | attempt <= n < count :: o.loads(ExtractJson(o.chat(n, ms))) == Ok(r.value)
    decreases count - attempt
  {
    if attempt < count {
      var raw := o.chat(attempt, messages);
      if Check(o, schema, ExtractJson(raw)).Err? {
        var e := Check(o, schema, ExtractJson(raw)).error;
        AttemptsSucceedOnlyWithValidData(o, schema, systemPrompt, attempt + 1, count,
          [ChatTurn("system", systemPrompt), ChatTurn("user", RepairPrompt(e, raw))], Some(e));
      }
    }
  }

  /** A failure after at least one request names the error of the last request, which is
      the one numbered `count - 1` (`lastMessages` is what it sent). */
  lemma {:induction false} AttemptsFailWithLastError(o: Oracles, schema: Json, systemPrompt: string, attempt: nat,
                                                     count: nat, messages: seq<ChatTurn>, lastError: Option<string>)
    returns (lastMessages: seq<ChatTurn>)
    requires attempt < count
    requires Attempts(o, schema, systemPrompt, attempt, count, messages, lastError).Err?
    ensures Check(o, schema, ExtractJson(o.chat(count - 1, lastMessages))).Err?
    ensures Attempts(o, schema, systemPrompt, attempt, count, messages, lastError).error
      == FinalError(Some(Check(o, schema, ExtractJson(o.chat(count - 1, lastMessages))).error))
    decreases count - attempt
  {
    var raw := o.chat(attempt, messages);
    var e := Check(o, schema, ExtractJson(raw)).error;
    var next := [ChatTurn("system", systemPrompt), ChatTurn("user", RepairPrompt(e, raw))];
    assert Check(o, schema, ExtractJson(raw)).Err?;
    assert Attempts(o, schema, systemPrompt, attempt, count, messages, lastError)
      == Attempts(o, schema, systemPrompt, attempt + 1, count, next, Some(e));
    if attempt + 1 < count {
      lastMessages := AttemptsFailWithLastError(o, schema, systemPrompt, attempt + 1, count, next, Some(e));
    } else {
      lastMessages := messages;
    }
  }

  /** With no request allowed at all, the error names no last error. */
  lemma NoAttemptsFailWithNone(o: Oracles, maxRetries: int, transcript: seq<Message>, template: Json)
    requires maxRetries < 0
    ensures SummarizeSpec(o, maxRetries, transcript, template)
      == Err(FinalError(None))
    ensures FinalError(None) == "Could not produce valid summary JSON after retries. Last error: " + "None"
  {
  }

  /** A first reply that is valid is returned as is, without another request. */
  lemma FirstValidReplyWins(o: Oracles, maxRetries: int, transcript: seq<Message>, template: Json)
    requires maxRetries >= 0
    requires var schema := TemplateToJsonSchema(template);
      Check(o, schema, ExtractJson(o.chat(0, FirstMessages(o, schema, transcript)))).Ok?
    ensures var schema := TemplateToJsonSchema(template);
      SummarizeSpec(o, maxRetries, transcript, template)
        == Check(o, schema, ExtractJson(o.chat(0, FirstMessages(o, schema, transcript))))
  {
  }

  class OllamaSummarizer {
    const model: string
    const baseUrl: string
    const timeoutSeconds: int
    const maxRetries: int

    constructor (model: string, baseUrl: string, timeoutSeconds: int, maxRetries: int)
      ensures this.model == model && this.baseUrl == RStripChar(baseUrl, '/')
      ensures this.timeoutSeconds == timeoutSeconds && this.maxRetries == maxRetries
    {
      this.model := model;
      this.baseUrl := RStripChar(baseUrl, '/');
      this.timeoutSeconds := timeoutSeconds;
      this.maxRetries := maxRetries;
    }

    /** `summarize`: at most `max_retries + 1` requests; the first candidate that parses and
        validates is returned, and otherwise the error names the last failure. `calls` counts
        the requests made. */
    method Summarize(o: Oracles, transcript: seq<Message>, template: Json)
      returns (r: Result<Json, string>, calls: nat)
      ensures r == SummarizeSpec(o, maxRetries, transcript, template)
      ensures calls <= AttemptCount(maxRetries)
      ensures r.Err? ==> calls == AttemptCount(maxRetries)
      ensures r.Ok? ==> Conforms(r.value, TemplateToJsonSchema(template))
    {
      var schema := TemplateToJsonSchema(template);
      var systemPrompt := SystemPrompt(o.dumps(schema));
      var messages := FirstMessages(o, schema, transcript);
      var lastError: Option<string> := None;
      var count := AttemptCount(maxRetries);
      AttemptsSucceedOnlyWithValidData(o, schema, systemPrompt, 0, count, messages, None);
      calls := 0;
      for attempt := 0 to count
        invariant calls == attempt
        invariant Attempts(o, schema, systemPrompt, attempt, count, messages, lastError)
          == SummarizeSpec(o, maxRetries, transcript, template)
      {
        var raw := o.chat(attempt, messages);
        calls := calls + 1;
        var candidate := ExtractJson(raw);
        var check := Check(o, schema, candidate);
        if check.Ok? {
          return Ok(check.value), calls;
        }
        lastError := Some(check.error);
        messages := [ChatTurn("system", systemPrompt), ChatTurn("user", RepairPrompt(check.error, raw))];
      }
      return Err(FinalError(lastError)), calls;
    }
  }

  /** The summarizer built with every default. */
  method DefaultSummarizer() returns (s: OllamaSummarizer)
    ensures s.model == DefaultModel && s.baseUrl == DefaultBaseUrl
    ensures s.timeoutSeconds == DefaultTimeoutSeconds && s.maxRetries == DefaultMaxRetries
  {
    s := new OllamaSummarizer(DefaultModel, DefaultBaseUrl, DefaultTimeoutSeconds, DefaultMaxRetries);
  }
}
