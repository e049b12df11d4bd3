/** The Claude client: the match-analysis prompt and the parse-then-fallback reading of
    the reply (`generateMatchPrediction`, `buildAnalysisPrompt`). */
module AnthropicClient {
  import opened Common
  import opened Strings
  import opened Json

  // ---------------------------------------------------------------------------
  // The reply
  // ---------------------------------------------------------------------------

  /** A content block of a model reply: text, or any other kind (such as a tool call). */
  datatype ContentBlock = TextBlock(text: string) | OtherBlock(kind: string)

  const ApiKeyMissing := "ANTHROPIC_API_KEY is not configured"
  const UnexpectedResponseType := "Unexpected response type from Claude API"
  const ParseFailed := "Failed to parse Claude API response"
  /** What the runtime raises when `content[0]` of an empty reply is inspected. */
  const NoContentBlock := "Cannot read properties of undefined (reading 'type')"

  /** The match of `/\{[\s\S]*\}/`: from the first `{` to the last `}`, when that `}`
      comes after the `{`. */
  function JsonSpan(text: string): (r: Option<string>)
    ensures r.Some? ==> FirstIndexOf(text, '{').Some? && LastIndexOf(text, '}').Some?
    ensures r.Some? ==>
      var i := FirstIndexOf(text, '{').value;
      var j := LastIndexOf(text, '}').value;
      i < j && r.value == text[i..j + 1]
    ensures r.Some? ==> |r.value| >= 2 && r.value[0] == '{' && r.value[|r.value| - 1] == '}'
  {
    match (FirstIndexOf(text, '{'), LastIndexOf(text, '}'))
    case (Some(i), Some(j)) =>
      if i < j then Some(text[i..j + 1]) else None
    case _ => None
  }

  /** The regex matches exactly when some `{` comes before some `}`. */
  lemma JsonSpanFound(text: string)
    ensures JsonSpan(text).Some? <==> exists i, j :: 0 <= i < j < |text| && text[i] == '{' && text[j] == '}'
  {
    if exists i, j :: 0 <= i < j < |text| && text[i] == '{' && text[j] == '}' {
      var i, j :| 0 <= i < j < |text| && text[i] == '{' && text[j] == '}';
      var first := FirstIndexOf(text, '{');
      var last := LastIndexOf(text, '}');
      assert first.Some? && first.value <= i;
      assert last.Some? && last.value >= j;
    }
  }

  /** An object surrounded by prose without braces is found exactly. */
  lemma JsonSpanInProse(before: string, json: string, after: string)
    requires |json| >= 2 && json[0] == '{' && json[|json| - 1] == '}'
    requires forall k :: 0 <= k < |before| ==> before[k] != '{'
    requires forall k :: 0 <= k < |after| ==> after[k] != '}'
    ensures JsonSpan(before + json + after) == Some(json)
  {
    var text := before + json + after;
    var i := |before|;
    var j := |before| + |json| - 1;
    assert text[i] == '{' && text[j] == '}';
    var first := FirstIndexOf(text, '{');
    var last := LastIndexOf(text, '}');
    assert first.Some? && last.Some?;
    assert first.value == i;
    assert last.value == j;
    assert text[i..j + 1] == json;
  }

  /** The reply text when the first content block is text. */
  function ReplyText(content: seq<ContentBlock>): (r: Result<string, string>)
    ensures content == [] ==> r == Err(NoContentBlock)
    ensures content != [] && content[0].TextBlock? ==> r == Ok(content[0].text)
    ensures content != [] && content[0].OtherBlock? ==> r == Err(UnexpectedResponseType)
  {
    if content == [] then Err(NoContentBlock)
    else if content[0].TextBlock? then Ok(content[0].text)
    else Err(UnexpectedResponseType)
  }

  /** Parse the whole text; failing that, parse the brace span; failing that, give up. */
  function ParseReply(text: string, parse: string -> Result<JsonValue, string>): (r: Result<JsonValue, string>)
    ensures parse(text).Ok? ==> r == parse(text)
    ensures parse(text).Err? && JsonSpan(text).None? ==> r == Err(ParseFailed)
    ensures parse(text).Err? && JsonSpan(text).Some? ==> r == parse(JsonSpan(text).value)
  {
    match parse(text)
    case Ok(v) => Ok(v)
    case Err(_) =>
      match JsonSpan(text)
      case None => Err(ParseFailed)
      case Some(span) => parse(span)
  }

  /** A reply that wraps the JSON object in prose is read as that object whenever the
      whole text is not itself valid JSON. */
  lemma ProseAroundJsonIsSkipped(before: string, json: string, after: string,
                                 parse: string -> Result<JsonValue, string>)
    requires |json| >= 2 && json[0] == '{' && json[|json| - 1] == '}'
    requires forall k :: 0 <= k < |before| ==> before[k] != '{'
    requires forall k :: 0 <= k < |after| ==> after[k] != '}'
    requires parse(before + json + after).Err?
    ensures ParseReply(before + json + after, parse) == parse(json)
  {
    JsonSpanInProse(before, json, after);
  }

  // ---------------------------------------------------------------------------
  // The analysis prompt
  // ---------------------------------------------------------------------------

  datatype AnalysisStats = AnalysisStats(
    form: Option<string>, position: Option<int>, goalsFor: Option<int>, goalsAgainst: Option<int>)

  datatype HeadToHeadScore = HeadToHeadScore(date: string, homeScore: int, awayScore: int)

  datatype RecentMatch = RecentMatch(opponent: string, score: string, result: string)

  datatype RecentMatches = RecentMatches(home: seq<RecentMatch>, away: seq<RecentMatch>)

  /** `MatchAnalysisInput`. */
  datatype MatchAnalysisInput = MatchAnalysisInput(
    homeTeam: string,
    awayTeam: string,
    homeTeamStats: Option<AnalysisStats>,
    awayTeamStats: Option<AnalysisStats>,
    headToHead: Option<seq<HeadToHeadScore>>,
    recentMatches: Option<RecentMatches>)

  /** The fixed wording: the opening instruction and the closing JSON request. */
  datatype Wording = Wording(opening: string, closing: string)

  const AnalysisWording := Wording(
    @"Tu es un expert en analyse de football. Analyse le match suivant et fournis une prédiction détaillée.

",
    @"

Fournis une analyse complète au format JSON avec les champs suivants:
{
  ""predictedHomeScore"": nombre entier entre 0 et 5,
  ""predictedAwayScore"": nombre entier entre 0 et 5,
  ""predictedWinner"": ""home"" | ""away"" | ""draw"",
  ""confidenceScore"": nombre entre 0 et 100,
  ""homeWinProbability"": nombre entre 0 et 100,
  ""drawProbability"": nombre entre 0 et 100,
  ""awayWinProbability"": nombre entre 0 et 100,
  ""analysisText"": ""texte d'analyse détaillé en français (3-5 phrases)"",
  ""keyFactors"": [""facteur 1"", ""facteur 2"", ""facteur 3""]
}

Réponds UNIQUEMENT avec le JSON, sans texte supplémentaire.")

  const NotAvailable := "N/A"

  /** `n || 'N/A'` for an optional number: absent and 0 both print `N/A`. */
  function NumberOrNA(n: Option<int>): (r: string)
    ensures TruthyInt(n) ==> r == IntToString(n.value)
    ensures !TruthyInt(n) ==> r == NotAvailable
  {
    if TruthyInt(n) then IntToString(n.value) else NotAvailable
  }

  /** The statistics block with its four values already rendered. */
  function StatsText(team: string, form: string, position: string, goalsFor: string, goalsAgainst: string): string {
    "\nStatistiques de " + team + ":\n"
    + "- Forme récente: " + form + "\n"
    + "- Position: " + position + "\n"
    + "- Buts marqués: " + goalsFor + "\n"
    + "- Buts encaissés: " + goalsAgainst + "\n"
  }

  /** A team's statistics block, present exactly when statistics are given. */
  function StatsBlock(team: string, stats: Option<AnalysisStats>): (block: string)
    ensures block == "" <==> stats.None?
  {
    match stats
    case None => ""
    case Some(st) =>
      StatsText(team, StringOr(st.form, NotAvailable), NumberOrNA(st.position),
                NumberOrNA(st.goalsFor), NumberOrNA(st.goalsAgainst))
  }

  /** Given statistics whose fields are all falsy (absent, empty or 0) print `N/A` on every line. */
  lemma FalsyStatsPrintNA(team: string, form: Option<string>, position: Option<int>,
                          goalsFor: Option<int>, goalsAgainst: Option<int>)
    requires !TruthyString(form) && !TruthyInt(position) && !TruthyInt(goalsFor) && !TruthyInt(goalsAgainst)
    ensures StatsBlock(team, Some(AnalysisStats(form, position, goalsFor, goalsAgainst)))
         == StatsText(team, NotAvailable, NotAvailable, NotAvailable, NotAvailable)
  {
  }

  function ScoreLine(m: HeadToHeadScore): string {
    "- " + m.date + ": " + IntToString(m.homeScore) + "-" + IntToString(m.awayScore)
  }

  function ScoreLines(ms: seq<HeadToHeadScore>): (lines: seq<string>)
    ensures |lines| == |ms|
    ensures forall i :: 0 <= i < |ms| ==> lines[i] == ScoreLine(ms[i])
  {
    seq(|ms|, i requires 0 <= i < |ms| => ScoreLine(ms[i]))
  }

  /** The head-to-head block, present exactly for a non-empty list. */
  function HeadToHeadBlock(headToHead: Option<seq<HeadToHeadScore>>): (block: string)
    ensures block == "" <==> !NonEmptyList(headToHead)
  {
    if NonEmptyList(headToHead) then
      "\nConfrontations directes:\n" + Join(ScoreLines(headToHead.value), "\n") + "\n"
    else ""
  }

  function MatchLine(team: string, m: RecentMatch): string {
    "- " + team + " vs " + m.opponent + ": " + m.score + " (" + m.result + ")"
  }

  function MatchLines(team: string, ms: seq<RecentMatch>): (lines: seq<string>)
    ensures |lines| == |ms|
    ensures forall i :: 0 <= i < |ms| ==> lines[i] == MatchLine(team, ms[i])
  {
    seq(|ms|, i requires 0 <= i < |ms| => MatchLine(team, ms[i]))
  }

  /** The recent-matches block, present exactly when recent matches are given (even two
      empty lists). */
  function RecentBlock(input: MatchAnalysisInput): (block: string)
    ensures block == "" <==> input.recentMatches.None?
  {
    match input.recentMatches
    case None => ""
    case Some(rm) =>
      "\nMatchs récents:\n"
      + Join(MatchLines(input.homeTeam, rm.home), "\n") + "\n"
      + Join(MatchLines(input.awayTeam, rm.away), "\n") + "\n"
  }

  function TeamLines(input: MatchAnalysisInput): string {
    "Équipe à domicile: " + input.homeTeam + "\nÉquipe à l'extérieur: " + input.awayTeam
  }

  function Layout(w: Wording, input: MatchAnalysisInput): string {
    w.opening + TeamLines(input)
    + "\n\n" + StatsBlock(input.homeTeam, input.homeTeamStats)
    + "\n\n" + StatsBlock(input.awayTeam, input.awayTeamStats)
    + "\n\n" + HeadToHeadBlock(input.headToHead)
    + "\n\n" + RecentBlock(input)
    + w.closing
  }

  /** `buildAnalysisPrompt`. */
  function BuildAnalysisPrompt(input: MatchAnalysisInput): string {
    Layout(AnalysisWording, input)
  }

  // ---------------------------------------------------------------------------
  // generateMatchPrediction
  // ---------------------------------------------------------------------------

  /** The flow of `generateMatchPrediction` once the prompt is built: `apiKey` is the
      configured key and `model` the answer of the model to a prompt (or the error the
      call raised). */
  function Answer(
    prompt: string, apiKey: Option<string>,
    model: string -> Result<seq<ContentBlock>, string>,
    parse: string -> Result<JsonValue, string>): (r: Result<JsonValue, string>)
    ensures !TruthyString(apiKey) ==> r == Err(ApiKeyMissing)
    ensures TruthyString(apiKey) && model(prompt).Err? ==> r == Err(model(prompt).error)
    ensures TruthyString(apiKey) && model(prompt).Ok? ==>
      var text := ReplyText(model(prompt).value);
      (text.Err? ==> r == Err(text.error)) && (text.Ok? ==> r == ParseReply(text.value, parse))
  {
    if !TruthyString(apiKey) then Err(ApiKeyMissing)
    else
      match model(prompt)
      case Err(e) => Err(e)
      case Ok(content) =>
        match ReplyText(content)
        case Err(e) => Err(e)
        case Ok(text) => ParseReply(text, parse)
  }

  /** `generateMatchPrediction`. */
  function GenerateMatchPrediction(
    input: MatchAnalysisInput, apiKey: Option<string>,
    model: string -> Result<seq<ContentBlock>, string>,
    parse: string -> Result<JsonValue, string>): Result<JsonValue, string>
  {
    Answer(BuildAnalysisPrompt(input), apiKey, model, parse)
  }

  /** A successful answer is always one `parse` produced, from the whole reply text or
      from its brace span; nothing else is ever returned. */
  lemma PredictionComesFromParse(
    prompt: string, apiKey: Option<string>,
    model: string -> Result<seq<ContentBlock>, string>,
    parse: string -> Result<JsonValue, string>)
    requires Answer(prompt, apiKey, model, parse).Ok?
    ensures TruthyString(apiKey)
    ensures var reply := model(prompt);
      && reply.Ok? && reply.value != [] && reply.value[0].TextBlock?
      && var text := reply.value[0].text;
         (parse(text) == Answer(prompt, apiKey, model, parse)
          || (JsonSpan(text).Some? && parse(JsonSpan(text).value) == Answer(prompt, apiKey, model, parse)))
  {
  }
}
