/**
 * The conversation analyzer (`ConversationAnalyzer`): builds the scoring
 * request for a transcript and turns the model's answer into a result with
 * defaults, never failing outward. The Groq call and `json_decode` are
 * foreign: their outcomes are inputs (`Completion`, `Decoded`).
 */
module Analyzer {
  import opened Wrappers
  import opened Text
  import opened JsonValue
  import opened ReplyGenerator

  /** The result array; `score` and `summary` are passed through as the model gave them. */
  datatype Analysis = Analysis(score: Json, summary: Json, reasoning: string)

  /** What `json_decode` made of the model's content. */
  datatype Decoded = Valid(value: Json) | InvalidJson

  /** What the chat-completions call produced. */
  datatype Completion =
    /**
     * an exception with this message: an HTTP error, or a body without
     * `choices[0].message.content`
     */
    | Failed(message: string)
    /** the decoded `choices[0].message.content` */
    | Answered(content: Decoded)

  const ErrorSummary: string := "Error analyzing conversation"
  const NoSummary: string := "No summary available"
  const NoReasoning: string := "No reasoning provided"
  const FailurePrefix: string := "Analysis failed: "
  const InvalidJsonMessage: string := "Invalid JSON format"

  /** Stand for the fixed scoring prompt around the transcript; their wording is not modelled. */
  const PromptHead: string := "<scoring instructions>\nConversation:\n"
  const PromptTail: string := "\n\n<response format and scoring criteria>"

  const ScoringModel: string := "mixtral-8x7b-32768"
  const MaxTokens: nat := 500

  /** The body posted to the model: the messages, the model id and the output budget. */
  datatype ScoringRequest = ScoringRequest(messages: seq<Turn>, model: string, maxTokens: nat)

  /** The request for a transcript: a single user message whose prompt embeds the transcript verbatim. */
  function RequestFor(transcript: string): (q: ScoringRequest)
    ensures |q.messages| == 1 && q.messages[0].role == User
    ensures Contains(q.messages[0].content, transcript)
    ensures q.model == ScoringModel && q.maxTokens == MaxTokens
  {
    var prompt := PromptHead + transcript + PromptTail;
    assert transcript <= prompt[|PromptHead|..];
    ScoringRequest([Turn(User, prompt)], ScoringModel, MaxTokens)
  }

  /** `getDefaultErrorResponse`, and the parser's own fallback: the sentinel result. */
  function FailureResult(message: string): (r: Analysis)
    ensures r.score == JNum(1) && r.summary == JStr(ErrorSummary)
    ensures r.reasoning == FailurePrefix + message
  {
    Analysis(JNum(1), JStr(ErrorSummary), FailurePrefix + message)
  }

  /** The line one `foreach` entry adds: `"key: value\n"` for a string value, nothing otherwise. */
  function Line(m: Member): string {
    if m.value.JStr? then m.key + ": " + m.value.s + "\n" else ""
  }

  /** What the reasoning loop accumulates over `entries`, in entry order. */
  function ReasoningLines(entries: seq<Member>): string {
    if entries == [] then "" else ReasoningLines(entries[..|entries| - 1]) + Line(entries[|entries| - 1])
  }

  /** The accumulated text of two runs of entries is the text of the first followed by the second. */
  lemma {:induction false} ReasoningLinesConcat(a: seq<Member>, b: seq<Member>)
    ensures ReasoningLines(a + b) == ReasoningLines(a) + ReasoningLines(b)
  {
    if b != [] {
      ReasoningLinesConcat(a, b[..|b| - 1]);
      assert (a + b)[..|a + b| - 1] == a + b[..|b| - 1];
    } else {
      assert a + b == a;
    }
  }

  /** Entries without a string value contribute nothing. */
  lemma {:induction false} ReasoningLinesOnlyStrings(entries: seq<Member>)
    requires forall i :: 0 <= i < |entries| ==> !entries[i].value.JStr?
    ensures ReasoningLines(entries) == ""
  {
    if entries != [] {
      ReasoningLinesOnlyStrings(entries[..|entries| - 1]);
    }
  }

  /** The reasoning text before trimming: flattened for an array, converted for a scalar, "" when unset. */
  function RawReasoning(analysis: Json): string {
    if IsSet(analysis, "reasoning") then
      var v := Get(analysis, "reasoning").value;
      if IsArray(v) then ReasoningLines(Entries(v)) else ScalarText(v).value
    else ""
  }

  /** `trim($reasoning) ?: 'No reasoning provided'`. */
  function FinalReasoning(raw: string): (r: string)
    ensures !IsEmptyString(r)
    ensures IsEmptyString(Trim(raw)) ==> r == NoReasoning
    ensures !IsEmptyString(Trim(raw)) ==> r == Trim(raw)
  {
    var t := Trim(raw);
    if IsEmptyString(t) then NoReasoning else t
  }

  /**
   * `parseAnalysisResult`: invalid JSON gives the sentinel with "Invalid JSON
   * format"; otherwise a set `score` and `summary` are kept as given (the
   * score is not clamped) and default to 1 and "No summary available".
   */
  function ParsedAnalysis(d: Decoded): (r: Analysis)
    ensures d.InvalidJson? ==> r == FailureResult(InvalidJsonMessage)
    ensures d.Valid? && IsSet(d.value, "score") ==> Get(d.value, "score") == Some(r.score)
    ensures d.Valid? && !IsSet(d.value, "score") ==> r.score == JNum(1)
    ensures d.Valid? && IsSet(d.value, "summary") ==> Get(d.value, "summary") == Some(r.summary)
    ensures d.Valid? && !IsSet(d.value, "summary") ==> r.summary == JStr(NoSummary)
    ensures d.Valid? ==> r.reasoning == FinalReasoning(RawReasoning(d.value))
    ensures !r.score.JNull? && !r.summary.JNull? && !IsEmptyString(r.reasoning)
  {
    match d
    case InvalidJson => FailureResult(InvalidJsonMessage)
    case Valid(a) =>
      Analysis(Coalesce(a, "score", JNum(1)), Coalesce(a, "summary", JStr(NoSummary)),
               FinalReasoning(RawReasoning(a)))
  }

  /**
   * A nested `reasoning` (an object, or a list keyed by index) becomes the
   * `key: value` lines of its string entries, trimmed; when those are blank,
   * the placeholder.
   */
  lemma NestedReasoning(a: Json, v: Json)
    requires Get(a, "reasoning") == Some(v) && IsArray(v)
    ensures var lines := Trim(ReasoningLines(Entries(v)));
            ParsedAnalysis(Valid(a)).reasoning == if IsEmptyString(lines) then NoReasoning else lines
  {
    assert IsSet(a, "reasoning");
    assert RawReasoning(a) == ReasoningLines(Entries(v));
  }

  /** A string `reasoning` is used as given, trimmed; a blank or `"0"` one becomes the placeholder. */
  lemma ScalarReasoning(a: Json, s: string)
    requires Get(a, "reasoning") == Some(JStr(s))
    ensures ParsedAnalysis(Valid(a)).reasoning == if IsEmptyString(Trim(s)) then NoReasoning else Trim(s)
  {
    assert IsSet(a, "reasoning");
    assert RawReasoning(a) == s;
  }

  /**
   * `analyzeConversation` as a function of the call's outcome: every failure
   * gives the sentinel with "Analysis failed: " and the message; an answer is
   * parsed. A usable result always comes back.
   */
  function Analyzed(c: Completion): (r: Analysis)
    ensures c.Failed? ==> r == FailureResult(c.message)
    ensures c.Answered? ==> r == ParsedAnalysis(c.content)
    ensures !r.score.JNull? && !r.summary.JNull? && !IsEmptyString(r.reasoning)
  {
    match c
    case Failed(m) => FailureResult(m)
    case Answered(d) => ParsedAnalysis(d)
  }

  /** The `foreach` of `parseAnalysisResult`: appends one line per string-valued entry. */
  method FlattenReasoning(entries: seq<Member>) returns (text: string)
    ensures text == ReasoningLines(entries)
  {
    text := "";
    var i := 0;
    while i < |entries|
      invariant 0 <= i <= |entries|
      invariant text == ReasoningLines(entries[..i])
    {
      if entries[i].value.JStr? {
        text := text + entries[i].key + ": " + entries[i].value.s + "\n";
      }
      assert entries[..i + 1][..i] == entries[..i];
      i := i + 1;
    }
    assert entries[..i] == entries;
  }

  /** `parseAnalysisResult($content)`, with its reasoning loop. */
  method ParseAnalysisResult(d: Decoded) returns (r: Analysis)
    ensures r == ParsedAnalysis(d)
  {
    if d.InvalidJson? {
      return FailureResult(InvalidJsonMessage);
    }
    var a := d.value;
    var score := Coalesce(a, "score", JNum(1));
    var summary := Coalesce(a, "summary", JStr(NoSummary));
    var reasoning := "";
    if IsSet(a, "reasoning") {
      var v := Get(a, "reasoning").value;
      if IsArray(v) {
        reasoning := FlattenReasoning(Entries(v));
      } else {
        reasoning := ScalarText(v).value;
      }
    }
    var t := Trim(reasoning);
    r := Analysis(score, summary, if IsEmptyString(t) then NoReasoning else t);
  }

  /** `analyzeConversation($transcript)`: the request it posts and the result it returns. */
  method AnalyzeConversation(transcript: string, c: Completion) returns (r: Analysis, request: ScoringRequest)
    ensures request == RequestFor(transcript)
    ensures r == Analyzed(c)
  {
    request := RequestFor(transcript);
    match c {
      case Failed(m) => r := FailureResult(m);
      case Answered(d) => r := ParseAnalysisResult(d);
    }
  }
}
