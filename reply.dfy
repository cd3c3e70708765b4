/**
 * The reply generator (`OpenRouterService`): assembles the chat request from
 * a fixed system prompt, a bounded history window and the user's turn, and
 * maps every outcome of the provider call to a string. The HTTP call itself
 * is foreign: its outcome is an input (`ProviderReply`).
 */
module ReplyGenerator {
  import opened Wrappers
  import opened Text

  datatype Role = System | User | Assistant

  /** One role-tagged entry of the `messages` array. */
  datatype Turn = Turn(role: Role, content: string)

  /** Stands for the fixed persona prompt; its wording is not modelled. */
  const SystemPrompt: string := "<loan-advisor persona prompt>"

  const ClarifyReply: string :=
    "I'm not sure what you're asking. Could you please provide more details?"
  const GenericErrorReply: string :=
    "I'm sorry, I'm having trouble processing your request right now. Please try again later."
  const ConnectionErrorReply: string :=
    "I'm sorry, I'm having trouble connecting to our service. Please try again later."

  /** How many history entries `array_slice($history, -5)` keeps. */
  const HistoryLimit: nat := 5

  /** What the chat-completions call produced. */
  datatype ProviderReply =
    /** Guzzle raised a `RequestException`: a non-2xx response (and, on Guzzle 6, a connection failure) */
    | RequestFailed
    /**
     * any other exception, including a body whose first choice lacks the
     * `message.content` key (the undefined-key warning becomes an exception)
     */
    | OtherFailure
    /**
     * a `TypeError`, which is an `Error` and not an `Exception`: the body
     * does not decode to an array (the debug log's context must be one), or
     * the first choice's `content` is null or an array (the `string` return type)
     */
    | TypeFailure
    /** a decoded body; `choices` is `None` when absent or null, else the contents of its choices */
    | Responded(choices: Option<seq<string>>)

  /** `array_slice($s, -n)`: the last `n` entries, in their given order. */
  function LastN(s: seq<Turn>, n: nat): (r: seq<Turn>)
    ensures |r| == if |s| < n then |s| else n
    ensures r == s[|s| - |r|..]
  {
    if |s| <= n then s else s[|s| - n..]
  }

  /**
   * `prepareMessages`: one system entry with the fixed prompt, then the last
   * (at most five) history entries in their order, then the user's turn.
   */
  function PrepareMessages(message: string, history: seq<Turn>): (r: seq<Turn>)
    ensures |r| == 2 + (if |history| < HistoryLimit then |history| else HistoryLimit)
    ensures r[0] == Turn(System, SystemPrompt)
    ensures r[|r| - 1] == Turn(User, message)
    ensures r[1..|r| - 1] == history[|history| - (|r| - 2)..]
  {
    [Turn(System, SystemPrompt)] + LastN(history, HistoryLimit) + [Turn(User, message)]
  }

  /** History older than the five most recent entries has no effect on the request. */
  lemma OlderHistoryIgnored(message: string, older: seq<Turn>, history: seq<Turn>)
    requires |history| >= HistoryLimit
    ensures PrepareMessages(message, older + history) == PrepareMessages(message, history)
  {
    var all := older + history;
    assert all[|all| - HistoryLimit..] == history[|history| - HistoryLimit..];
  }

  /**
   * `callOpenRouterApi`: the first choice's content when `choices` is set
   * and non-empty; the generic error text when it is missing or empty and on
   * any exception other than a `RequestException`, which gives the
   * connection-error text. A `TypeError` escapes both catches: no string
   * comes back (`None`).
   */
  function InterpretReply(outcome: ProviderReply): (r: Option<string>)
    ensures r.None? <==> outcome.TypeFailure?
    ensures outcome.RequestFailed? ==> r == Some(ConnectionErrorReply)
    ensures outcome.OtherFailure? ==> r == Some(GenericErrorReply)
    ensures outcome.Responded? && outcome.choices.Some? && outcome.choices.value != [] ==>
              r == Some(outcome.choices.value[0])
    ensures outcome.Responded? && (outcome.choices.None? || outcome.choices.value == []) ==>
              r == Some(GenericErrorReply)
  {
    match outcome
    case RequestFailed => Some(ConnectionErrorReply)
    case OtherFailure => Some(GenericErrorReply)
    case TypeFailure => None
    case Responded(choices) =>
      Some(if choices.Some? && choices.value != [] then choices.value[0] else GenericErrorReply)
  }

  /**
   * A reply (`None` when an uncaught `Error` ended the call) and the request
   * sent for it, if one was sent.
   */
  datatype Generation = Generation(reply: Option<string>, request: Option<seq<Turn>>)

  /**
   * `generateResponse`: a message that is blank after trimming (PHP `empty`,
   * so also `"0"`) gets the clarifying reply and no request is made;
   * otherwise the trimmed message is sent with the history and the reply is
   * the provider's answer, a fixed fallback, or, on a `TypeError` inside the
   * call, none at all.
   */
  function GenerateResponse(message: string, history: seq<Turn>, outcome: ProviderReply): (g: Generation)
    ensures g.request.None? <==> IsEmptyString(Trim(message))
    ensures g.request.None? ==> g.reply == Some(ClarifyReply)
    ensures g.request.Some? ==>
              g.request.value == PrepareMessages(Trim(message), history) && g.reply == InterpretReply(outcome)
  {
    var m := Trim(message);
    if IsEmptyString(m) then Generation(Some(ClarifyReply), None)
    else Generation(InterpretReply(outcome), Some(PrepareMessages(m, history)))
  }

  /**
   * Every reply is the provider's first choice or one of the three fixed
   * texts, and there is none exactly when a request was made and it ended
   * in a `TypeError`.
   */
  lemma ReplyIsAnswerOrFallback(message: string, history: seq<Turn>, outcome: ProviderReply)
    ensures var r := GenerateResponse(message, history, outcome).reply;
            r.None? <==> !IsEmptyString(Trim(message)) && outcome.TypeFailure?
    ensures var r := GenerateResponse(message, history, outcome).reply;
            r.Some? ==>
              || r.value in {ClarifyReply, GenericErrorReply, ConnectionErrorReply}
              || (outcome.Responded? && outcome.choices.Some? && outcome.choices.value != []
                  && r.value == outcome.choices.value[0])
  {
  }
}
