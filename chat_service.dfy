/** The conversational assistant (`ChatService`): the key guard, the reply checks, the
    error messages, the extractors and the suggested questions. */
module ChatServiceModel {
  import opened Common
  import opened Strings
  import AnthropicClient
  import ChatAssistantPrompt
  import UsageTracking
  import CostCalculator

  /** What a `catch` receives: an `Error` with its message, or any other thrown value. */
  datatype Thrown = ErrorObject(message: string) | OtherValue

  datatype TokenUsage = TokenUsage(inputTokens: Option<int>, outputTokens: Option<int>)

  /** The model's reply; the content list and the usage report may be missing. */
  datatype ChatReply = ChatReply(content: Option<seq<AnthropicClient.ContentBlock>>, usage: Option<TokenUsage>)

  datatype ChatResponse = ChatResponse(message: string, suggestions: seq<string>, relatedMatches: seq<string>)

  const EmptyResponse := "Empty response from Claude API"
  const UnexpectedTypePrefix := "Unexpected response type from Claude API: "
  const InvalidKeyMessage := "Invalid Anthropic API key. Please check your ANTHROPIC_API_KEY in .env.local"
  const RateLimitMessage := "Rate limit exceeded. Please try again later."
  const ServerErrorMessage := "Anthropic API server error. Please try again later."
  const FailurePrefix := "Failed to get chat response: "
  const UnknownError := "Unknown error"

  // ---------------------------------------------------------------------------
  // The reply and the errors
  // ---------------------------------------------------------------------------

  /** The text of the first content block, or the message of the error `chat` raises. */
  function ReplyText(reply: ChatReply): (r: Result<string, string>)
    ensures reply.content.None? || reply.content == Some([]) ==> r == Err(EmptyResponse)
    ensures reply.content.Some? && reply.content.value != [] ==>
      match reply.content.value[0]
      case TextBlock(text) => r == Ok(text)
      case OtherBlock(kind) => r == Err(UnexpectedTypePrefix + kind)
  {
    match reply.content
    case None => Err(EmptyResponse)
    case Some(blocks) =>
      if blocks == [] then Err(EmptyResponse)
      else match blocks[0]
        case TextBlock(text) => Ok(text)
        case OtherBlock(kind) => Err(UnexpectedTypePrefix + kind)
  }

  predicate AuthFailure(t: Thrown) {
    t.ErrorObject? && (Contains(t.message, "401") || Contains(t.message, "authentication"))
  }

  predicate RateLimited(t: Thrown) {
    t.ErrorObject? && (Contains(t.message, "429") || Contains(t.message, "rate limit"))
  }

  predicate ServerFailure(t: Thrown) {
    t.ErrorObject? && (Contains(t.message, "500") || Contains(t.message, "server"))
  }

  /** The four outcomes of the error classification of `chat`. */
  datatype ChatFailure = InvalidKey | RateLimit | ServerError | Unclassified(detail: string)

  /** The case of an error caught by `chat`; the first matching case wins. */
  function ClassifyChatError(t: Thrown): (k: ChatFailure)
    ensures k == InvalidKey <==> AuthFailure(t)
    ensures k == RateLimit <==> !AuthFailure(t) && RateLimited(t)
    ensures k == ServerError <==> !AuthFailure(t) && !RateLimited(t) && ServerFailure(t)
    ensures k.Unclassified? <==> !AuthFailure(t) && !RateLimited(t) && !ServerFailure(t)
    ensures k.Unclassified? ==> k.detail == if t.ErrorObject? then t.message else UnknownError
  {
    if AuthFailure(t) then InvalidKey
    else if RateLimited(t) then RateLimit
    else if ServerFailure(t) then ServerError
    else Unclassified(if t.ErrorObject? then t.message else UnknownError)
  }

  /** The message of the error `chat` rethrows for each case. */
  function FailureMessage(k: ChatFailure): string {
    match k
    case InvalidKey => InvalidKeyMessage
    case RateLimit => RateLimitMessage
    case ServerError => ServerErrorMessage
    case Unclassified(detail) => FailurePrefix + detail
  }

  /** Any error that matches no case keeps its message, behind the prefix. */
  lemma UnmatchedErrorKeepsMessage(message: string)
    requires !AuthFailure(ErrorObject(message)) && !RateLimited(ErrorObject(message))
    requires !ServerFailure(ErrorObject(message))
    ensures Contains(FailureMessage(ClassifyChatError(ErrorObject(message))), message)
  {
    ContainsSelf(message);
    ContainsRight(FailurePrefix, message, message);
  }

  /** An empty reply is reported with that reason behind the generic prefix. */
  lemma EmptyReplyReported()
    ensures ClassifyChatError(ErrorObject(EmptyResponse)) == Unclassified(EmptyResponse)
  {
    var s := EmptyResponse;
    assert forall i :: 0 <= i < |s| ==> s[i] != '4';
    MissingCharNotContained(s, "401", 0);
    MissingCharNotContained(s, "429", 0);
    assert forall i :: 0 <= i < |s| ==> s[i] != 'h';
    MissingCharNotContained(s, "authentication", 3);
    assert forall i :: 0 <= i < |s| ==> s[i] != 'i';
    MissingCharNotContained(s, "rate limit", 6);
    assert forall i :: 0 <= i < |s| ==> s[i] != '5';
    MissingCharNotContained(s, "500", 0);
    assert forall i :: 0 <= i < |s| ==> s[i] != 'v';
    MissingCharNotContained(s, "server", 3);
  }

  /** The type of a non-text block is part of the message that is classified, so a
      `server_tool_use` block is reported as a server error. */
  lemma ServerToolBlockReadAsServerError()
    ensures ClassifyChatError(ErrorObject(UnexpectedTypePrefix + "server_tool_use")) == ServerError
  {
    var s := UnexpectedTypePrefix + "server_tool_use";
    TypePrefixLacks();
    ServerToolLacks();
    LacksConcat(UnexpectedTypePrefix, "server_tool_use", '4');
    LacksConcat(UnexpectedTypePrefix, "server_tool_use", 'h');
    LacksConcat(UnexpectedTypePrefix, "server_tool_use", 'i');
    MissingCharNotContained(s, "401", 0);
    MissingCharNotContained(s, "429", 0);
    MissingCharNotContained(s, "authentication", 3);
    MissingCharNotContained(s, "rate limit", 6);
    ContainsMiddle(UnexpectedTypePrefix, "server", "_tool_use");
    assert UnexpectedTypePrefix + "server" + "_tool_use" == s;
  }

  lemma TypePrefixLacks()
    ensures Lacks(UnexpectedTypePrefix, '4') && Lacks(UnexpectedTypePrefix, 'h') && Lacks(UnexpectedTypePrefix, 'i')
  {
  }

  lemma ServerToolLacks()
    ensures Lacks("server_tool_use", '4') && Lacks("server_tool_use", 'h') && Lacks("server_tool_use", 'i')
  {
  }

  // ---------------------------------------------------------------------------
  // The extractors
  // ---------------------------------------------------------------------------

  /** `extractSuggestions`: `captures` gives the first capture group of each match of the
      suggestion pattern in the text; each is trimmed and at most 3 are kept. */
  function ExtractSuggestions(text: string, captures: string -> seq<string>): (r: seq<string>)
    ensures |r| <= 3 && |r| == if |captures(text)| <= 3 then |captures(text)| else 3
    ensures forall i :: 0 <= i < |r| ==> r[i] == Trim(captures(text)[i])
  {
    var all := captures(text);
    Take(seq(|all|, i requires 0 <= i < |all| => Trim(all[i])), 3)
  }

  /** `extractRelatedMatches`: `captures` gives the two team names of each match of the
      team pattern; each pair is written "A vs B" and at most 3 are kept. */
  function ExtractRelatedMatches(text: string, captures: string -> seq<(string, string)>): (r: seq<string>)
    ensures |r| <= 3 && |r| == if |captures(text)| <= 3 then |captures(text)| else 3
    ensures forall i :: 0 <= i < |r| ==> r[i] == captures(text)[i].0 + " vs " + captures(text)[i].1
  {
    var all := captures(text);
    Take(seq(|all|, i requires 0 <= i < |all| => all[i].0 + " vs " + all[i].1), 3)
  }

  // ---------------------------------------------------------------------------
  // chat
  // ---------------------------------------------------------------------------

  /** The answer of `chat`. The prompt is laid out with wording `w`; `apiKey` is the
      configured key, `model` the reply to a prompt (or what the call threw), and the two
      capture functions stand for the extractors' regular expressions. */
  function ChatOutcome(
    w: ChatAssistantPrompt.Wording, userMessage: string, context: ChatAssistantPrompt.ChatContext,
    apiKey: Option<string>, model: string -> Result<ChatReply, Thrown>,
    suggestionCaptures: string -> seq<string>, teamCaptures: string -> seq<(string, string)>)
    : (r: Result<ChatResponse, string>)
    ensures !TruthyString(apiKey) ==> r == Err(AnthropicClient.ApiKeyMissing)
    ensures TruthyString(apiKey) ==>
      var reply := model(ChatAssistantPrompt.Layout(w, userMessage, context));
      && (reply.Err? ==> r == Err(FailureMessage(ClassifyChatError(reply.error))))
      && (reply.Ok? && ReplyText(reply.value).Err? ==>
            r == Err(FailureMessage(ClassifyChatError(ErrorObject(ReplyText(reply.value).error)))))
      && (reply.Ok? && ReplyText(reply.value).Ok? ==>
            var text := ReplyText(reply.value).value;
            r == Ok(ChatResponse(text, ExtractSuggestions(text, suggestionCaptures),
                                 ExtractRelatedMatches(text, teamCaptures))))
  {
    if !TruthyString(apiKey) then Err(AnthropicClient.ApiKeyMissing)
    else
      match model(ChatAssistantPrompt.Layout(w, userMessage, context))
      case Err(thrown) => Err(FailureMessage(ClassifyChatError(thrown)))
      case Ok(reply) =>
        match ReplyText(reply)
        case Err(message) => Err(FailureMessage(ClassifyChatError(ErrorObject(message))))
        case Ok(text) =>
          Ok(ChatResponse(text, ExtractSuggestions(text, suggestionCaptures),
                          ExtractRelatedMatches(text, teamCaptures)))
  }

  /** Without a key the answer does not depend on the model at all: it is never called. */
  lemma MissingKeyBeforeAnyCall(
    w: ChatAssistantPrompt.Wording, userMessage: string, context: ChatAssistantPrompt.ChatContext,
    apiKey: Option<string>, model1: string -> Result<ChatReply, Thrown>, model2: string -> Result<ChatReply, Thrown>,
    suggestionCaptures: string -> seq<string>, teamCaptures: string -> seq<(string, string)>)
    requires !TruthyString(apiKey)
    ensures ChatOutcome(w, userMessage, context, apiKey, model1, suggestionCaptures, teamCaptures)
         == ChatOutcome(w, userMessage, context, apiKey, model2, suggestionCaptures, teamCaptures)
         == Err(AnthropicClient.ApiKeyMissing)
  {
  }

  /** Every failure after the key check is one of the three fixed messages or the
      generic prefix; the missing-key error is the only one not classified. */
  lemma FailuresAreClassified(
    w: ChatAssistantPrompt.Wording, userMessage: string, context: ChatAssistantPrompt.ChatContext,
    apiKey: Option<string>, model: string -> Result<ChatReply, Thrown>,
    suggestionCaptures: string -> seq<string>, teamCaptures: string -> seq<(string, string)>)
    requires ChatOutcome(w, userMessage, context, apiKey, model, suggestionCaptures, teamCaptures).Err?
    requires TruthyString(apiKey)
    ensures var e := ChatOutcome(w, userMessage, context, apiKey, model, suggestionCaptures, teamCaptures).error;
      || e == InvalidKeyMessage || e == RateLimitMessage || e == ServerErrorMessage
      || (|FailurePrefix| <= |e| && e[..|FailurePrefix|] == FailurePrefix)
  {
  }

  /** A successful answer carries the model's text verbatim, and the prompt the model
      answered holds the user's message verbatim. */
  lemma AnswerIsReplyText(
    w: ChatAssistantPrompt.Wording, userMessage: string, context: ChatAssistantPrompt.ChatContext,
    apiKey: Option<string>, model: string -> Result<ChatReply, Thrown>,
    suggestionCaptures: string -> seq<string>, teamCaptures: string -> seq<(string, string)>)
    requires ChatOutcome(w, userMessage, context, apiKey, model, suggestionCaptures, teamCaptures).Ok?
    ensures var prompt := ChatAssistantPrompt.Layout(w, userMessage, context);
      && Contains(prompt, userMessage)
      && model(prompt).Ok? && model(prompt).value.content.Some?
      && |model(prompt).value.content.value| > 0
      && model(prompt).value.content.value[0] == AnthropicClient.TextBlock(
           ChatOutcome(w, userMessage, context, apiKey, model, suggestionCaptures, teamCaptures).value.message)
  {
    var prompt := ChatAssistantPrompt.Layout(w, userMessage, context);
    var span := ChatAssistantPrompt.Banner(ChatAssistantPrompt.QuestionTitle) + userMessage
      + ChatAssistantPrompt.Banner(ChatAssistantPrompt.InstructionsTitle);
    ChatAssistantPrompt.MessageVerbatim(w, userMessage, context);
    ContainsMiddle(ChatAssistantPrompt.Banner(ChatAssistantPrompt.QuestionTitle), userMessage,
      ChatAssistantPrompt.Banner(ChatAssistantPrompt.InstructionsTitle));
    ContainsTransitive(prompt, span, userMessage);
  }

  // ---------------------------------------------------------------------------
  // generateQuestionSuggestions
  // ---------------------------------------------------------------------------

  const WeekendQuestion := "Quels sont les matchs les plus intéressants ce weekend ?"
  const SystemQuestion := "Comment fonctionne le système de prédiction ?"

  function TeamQuestion(team: string): string {
    "Quels sont les prochains matchs de " + team + " ?"
  }

  function LeagueQuestion(league: string): string {
    "Quelles sont les tendances actuelles en " + league + " ?"
  }

  /** `generateQuestionSuggestions`. */
  method GenerateQuestionSuggestions(context: ChatAssistantPrompt.ChatContext) returns (r: seq<string>)
    ensures |r| == 2 + (if NonEmptyList(context.favoriteTeams) then 1 else 0)
                     + (if NonEmptyList(context.followedLeagues) then 1 else 0)
    ensures 2 <= |r| <= 4
    ensures r[|r| - 2..] == [WeekendQuestion, SystemQuestion]
    ensures NonEmptyList(context.favoriteTeams) ==> r[0] == TeamQuestion(context.favoriteTeams.value[0])
    ensures NonEmptyList(context.followedLeagues) ==>
      r[|r| - 3] == LeagueQuestion(context.followedLeagues.value[0])
  {
    var suggestions: seq<string> := [];
    if NonEmptyList(context.favoriteTeams) {
      suggestions := suggestions + [TeamQuestion(context.favoriteTeams.value[0])];
    }
    if NonEmptyList(context.followedLeagues) {
      suggestions := suggestions + [LeagueQuestion(context.followedLeagues.value[0])];
    }
    suggestions := suggestions + [WeekendQuestion];
    suggestions := suggestions + [SystemQuestion];
    r := Take(suggestions, 4);
  }

  // ---------------------------------------------------------------------------
  // The service
  // ---------------------------------------------------------------------------

  /** `n || 0` for a reported token count. */
  function TokensOrZero(n: Option<int>): int {
    if n.Some? then n.value else 0
  }

  /** The chat service: the prompt wording and the usage log it writes to. */
  class ChatService {
    const wording: ChatAssistantPrompt.Wording
    const usageTracking: UsageTracking.UsageLogTable

    constructor(w: ChatAssistantPrompt.Wording, usage: UsageTracking.UsageLogTable)
      ensures wording == w && usageTracking == usage
    {
      wording := w;
      usageTracking := usage;
    }

    /** `chat`: answers as `ChatOutcome` does and, for a text reply carrying a usage report
        and a user id, logs a "chat" request priced as the Sonnet model. `now` is the time
        of the log row and `logSucceeds` the outcome of its insert. */
    method Chat(
      userMessage: string, context: ChatAssistantPrompt.ChatContext,
      apiKey: Option<string>, model: string -> Result<ChatReply, Thrown>,
      suggestionCaptures: string -> seq<string>, teamCaptures: string -> seq<(string, string)>,
      now: int, logSucceeds: bool)
      returns (r: Result<ChatResponse, string>)
      modifies usageTracking
      ensures r == ChatOutcome(wording, userMessage, context, apiKey, model, suggestionCaptures, teamCaptures)
      ensures var reply := model(ChatAssistantPrompt.Layout(wording, userMessage, context));
        if r.Ok? && context.userId != "" && reply.value.usage.Some? && logSucceeds then
          usageTracking.rows == old(usageTracking.rows) + [UsageTracking.LogRow(
            context.userId, UsageTracking.Chat,
            TokensOrZero(reply.value.usage.value.inputTokens), TokensOrZero(reply.value.usage.value.outputTokens),
            CostCalculator.Sonnet, now)]
        else usageTracking.rows == old(usageTracking.rows)
    {
      r := ChatOutcome(wording, userMessage, context, apiKey, model, suggestionCaptures, teamCaptures);
      if r.Ok? {
        var reply := model(ChatAssistantPrompt.Layout(wording, userMessage, context)).value;
        if context.userId != "" && reply.usage.Some? {
          usageTracking.LogUsage(context.userId, UsageTracking.Chat,
            TokensOrZero(reply.usage.value.inputTokens), TokensOrZero(reply.usage.value.outputTokens),
            CostCalculator.Sonnet, now, logSucceeds);
        }
      }
    }
  }
}
