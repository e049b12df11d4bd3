/** The prompt asking the model for a detailed match prediction (`buildMatchPredictionPrompt`). */
module MatchPredictionPrompt {
  import opened Common
  import opened Strings

  datatype RecentResult = RecentResult(opponent: string, score: string, result: string)

  /** Team statistics; every field is optional. Numbers are integers here. */
  datatype TeamStats = TeamStats(
    form: Option<string>,
    position: Option<int>,
    goalsFor: Option<int>,
    goalsAgainst: Option<int>,
    recentResults: Option<seq<RecentResult>>)

  datatype HeadToHead = HeadToHead(date: string, homeScore: int, awayScore: int, winner: string)

  datatype Injuries = Injuries(home: seq<string>, away: seq<string>)

  datatype Weather = Weather(condition: string, temperature: int)

  /** `MatchPredictionInput`. */
  datatype MatchPredictionInput = MatchPredictionInput(
    homeTeam: string,
    awayTeam: string,
    matchDate: string,
    league: string,
    homeTeamStats: TeamStats,
    awayTeamStats: TeamStats,
    headToHead: Option<seq<HeadToHead>>,
    injuries: Option<Injuries>,
    weather: Option<Weather>)

  /** The horizontal rule framing each section title. */
  const Rule := "───────────────────────────────────────────────────────────────"

  /** A section title between two rules. */
  function Heading(title: string): string {
    "\n" + Rule + "\n" + title + "\n" + Rule + "\n"
  }

  /** The fixed wording: the opening lines with the main title, and the closing request
      for the JSON answer. The layout lemmas below hold for any wording. */
  datatype Wording = Wording(opening: string, closing: string)

  const PredictionWording := Wording(
    @"Tu es un expert en analyse de football avec accès à des millions de données historiques. 
Ton rôle est d'analyser ce match de manière approfondie et de fournir une prédiction précise et détaillée.

═══════════════════════════════════════════════════════════════
                    ANALYSE DE MATCH
═══════════════════════════════════════════════════════════════

",
    @"

═══════════════════════════════════════════════════════════════
                    TON ANALYSE
═══════════════════════════════════════════════════════════════

Analyse ce match de manière approfondie en considérant:
1. La forme récente des deux équipes
2. Les statistiques offensives et défensives
3. L'historique des confrontations directes
4. L'avantage à domicile
5. Les blessures et suspensions
6. Les conditions météo (si pertinentes)
7. Le contexte de la compétition
8. Les enjeux du match

Fournis une prédiction complète au format JSON strict avec les champs suivants:

{
  ""predictedHomeScore"": nombre entier entre 0 et 5,
  ""predictedAwayScore"": nombre entier entre 0 et 5,
  ""predictedWinner"": ""home"" | ""away"" | ""draw"",
  ""confidenceScore"": nombre entre 0 et 100,
  ""homeWinProbability"": nombre entre 0 et 100,
  ""drawProbability"": nombre entre 0 et 100,
  ""awayWinProbability"": nombre entre 0 et 100,
  ""analysisText"": ""texte d'analyse détaillé en français (5-8 phrases expliquant le raisonnement)"",
  ""keyFactors"": [""facteur 1"", ""facteur 2"", ""facteur 3"", ""facteur 4"", ""facteur 5""],
  ""risks"": [""risque 1"", ""risque 2""],
  ""recommendation"": ""recommandation courte (1-2 phrases)""
}

IMPORTANT:
- Sois précis et basé sur les données
- Indique ton niveau de confiance honnêtement
- Explique clairement ton raisonnement
- Identifie les facteurs clés qui influencent ta prédiction
- Mentionne les risques et incertitudes
- Réponds UNIQUEMENT avec le JSON, sans texte supplémentaire")

  // ---------------------------------------------------------------------------
  // Team statistics
  // ---------------------------------------------------------------------------

  /** `<title>: <text>` for a non-empty string, nothing otherwise. */
  function TextLine(title: string, value: Option<string>): (line: string)
    ensures line == "" <==> !TruthyString(value)
    ensures TruthyString(value) ==> line == title + ": " + value.value
  {
    if TruthyString(value) then title + ": " + value.value else ""
  }

  /** `<title>: <number>` for a non-zero number, nothing otherwise: 0 is falsy. */
  function NumberLine(title: string, value: Option<int>): (line: string)
    ensures line == "" <==> !TruthyInt(value)
    ensures TruthyInt(value) ==> line == title + ": " + IntToString(value.value)
  {
    if TruthyInt(value) then title + ": " + IntToString(value.value) else ""
  }

  function ResultLine(r: RecentResult): string {
    "  - vs " + r.opponent + ": " + r.score + " (" + r.result + ")"
  }

  function ResultLines(rs: seq<RecentResult>): (lines: seq<string>)
    ensures |lines| == |rs|
    ensures forall i :: 0 <= i < |rs| ==> lines[i] == ResultLine(rs[i])
  {
    seq(|rs|, i requires 0 <= i < |rs| => ResultLine(rs[i]))
  }

  /** The recent results block, present exactly for a non-empty list. */
  function ResultsBlock(results: Option<seq<RecentResult>>): (block: string)
    ensures block == "" <==> !NonEmptyList(results)
    ensures NonEmptyList(results) ==>
      block == "\nDerniers résultats:\n" + Join(ResultLines(results.value), "\n") + "\n"
  {
    if NonEmptyList(results) then "\nDerniers résultats:\n" + Join(ResultLines(results.value), "\n") + "\n" else ""
  }

  /** The four stat lines, then the recent results. */
  function StatLines(stats: TeamStats): string {
    TextLine("Forme récente", stats.form) + "\n"
    + NumberLine("Position au classement", stats.position) + "\n"
    + NumberLine("Buts marqués", stats.goalsFor) + "\n"
    + NumberLine("Buts encaissés", stats.goalsAgainst) + "\n"
    + ResultsBlock(stats.recentResults)
  }

  /** A team's statistics section; `side` is `DOMICILE` or `EXTÉRIEUR`. */
  function StatsSection(team: string, side: string, stats: TeamStats): string {
    "\n" + Heading("STATISTIQUES " + team + " (" + side + ")") + StatLines(stats)
  }

  /** With no statistics known only the empty lines are left under the title. */
  lemma NoStatsNoLines(zero: Option<int>)
    requires zero == None || zero == Some(0)
    ensures StatLines(TeamStats(None, zero, zero, zero, None)) == "\n\n\n\n"
  {
  }

  // ---------------------------------------------------------------------------
  // Optional sections
  // ---------------------------------------------------------------------------

  function HeadToHeadLine(home: string, away: string, h: HeadToHead): string {
    "  - " + h.date + ": " + home + " " + IntToString(h.homeScore) + "-" + IntToString(h.awayScore)
    + " " + away + " (" + h.winner + ")"
  }

  function HeadToHeadLines(home: string, away: string, hs: seq<HeadToHead>): (lines: seq<string>)
    ensures |lines| == |hs|
    ensures forall i :: 0 <= i < |hs| ==> lines[i] == HeadToHeadLine(home, away, hs[i])
  {
    seq(|hs|, i requires 0 <= i < |hs| => HeadToHeadLine(home, away, hs[i]))
  }

  /** The head-to-head section, present exactly for a non-empty list. */
  function HeadToHeadSection(input: MatchPredictionInput): (section: string)
    ensures section == "" <==> !NonEmptyList(input.headToHead)
    ensures NonEmptyList(input.headToHead) ==>
      section == Heading("CONFRONTATIONS DIRECTES")
        + Join(HeadToHeadLines(input.homeTeam, input.awayTeam, input.headToHead.value), "\n") + "\n"
  {
    if NonEmptyList(input.headToHead) then
      Heading("CONFRONTATIONS DIRECTES")
      + Join(HeadToHeadLines(input.homeTeam, input.awayTeam, input.headToHead.value), "\n") + "\n"
    else ""
  }

  /** One side of the injury list: the names, or a full squad when there are none. */
  function InjuryLine(team: string, names: seq<string>): (line: string)
    ensures names == [] ==> line == team + ": Équipe au complet"
    ensures names != [] ==> line == team + ": " + Join(names, ", ")
  {
    team + ": " + (if |names| > 0 then Join(names, ", ") else "Équipe au complet")
  }

  /** The injuries section, present exactly when injuries are given. */
  function InjuriesSection(input: MatchPredictionInput): (section: string)
    ensures section == "" <==> input.injuries.None?
    ensures input.injuries.Some? ==>
      section == Heading("BLESSURES & SUSPENSIONS")
        + InjuryLine(input.homeTeam, input.injuries.value.home) + "\n"
        + InjuryLine(input.awayTeam, input.injuries.value.away) + "\n"
  {
    match input.injuries
    case None => ""
    case Some(inj) =>
      Heading("BLESSURES & SUSPENSIONS")
      + InjuryLine(input.homeTeam, inj.home) + "\n"
      + InjuryLine(input.awayTeam, inj.away) + "\n"
  }

  /** The weather section, present exactly when the weather is given. */
  function WeatherSection(input: MatchPredictionInput): (section: string)
    ensures section == "" <==> input.weather.None?
    ensures input.weather.Some? ==>
      section == Heading("CONDITIONS MÉTÉO") + "Condition: " + input.weather.value.condition
        + "\nTempérature: " + IntToString(input.weather.value.temperature) + "°C\n"
  {
    match input.weather
    case None => ""
    case Some(w) =>
      Heading("CONDITIONS MÉTÉO") + "Condition: " + w.condition
      + "\nTempérature: " + IntToString(w.temperature) + "°C\n"
  }

  // ---------------------------------------------------------------------------
  // The whole prompt
  // ---------------------------------------------------------------------------

  /** The `MATCH`, `DATE` and `LIGUE` lines. */
  function MatchLines(input: MatchPredictionInput): seq<string> {
    ["MATCH: " + input.homeTeam + " vs " + input.awayTeam,
     "DATE: " + input.matchDate,
     "LIGUE: " + input.league]
  }

  /** Everything between the match lines and the closing request. */
  function Body(input: MatchPredictionInput): string {
    StatsSection(input.homeTeam, "DOMICILE", input.homeTeamStats)
    + StatsSection(input.awayTeam, "EXTÉRIEUR", input.awayTeamStats)
    + "\n\n" + HeadToHeadSection(input)
    + "\n\n" + InjuriesSection(input)
    + "\n\n" + WeatherSection(input)
  }

  function Layout(w: Wording, input: MatchPredictionInput): string {
    w.opening + Join(MatchLines(input), "\n") + (Body(input) + w.closing)
  }

  /** `buildMatchPredictionPrompt`. */
  function BuildMatchPredictionPrompt(input: MatchPredictionInput): string {
    Layout(PredictionWording, input)
  }

  /** The prompt always names the match, its date and its league. */
  lemma MatchLinesShown(w: Wording, input: MatchPredictionInput)
    ensures Contains(Layout(w, input), "MATCH: " + input.homeTeam + " vs " + input.awayTeam)
    ensures Contains(Layout(w, input), "DATE: " + input.matchDate)
    ensures Contains(Layout(w, input), "LIGUE: " + input.league)
  {
    var lines := MatchLines(input);
    var rest := Body(input) + w.closing;
    forall k | 0 <= k < 3 ensures Contains(Layout(w, input), lines[k]) {
      JoinContains(lines, "\n", k);
      ContainsWithin(w.opening, Join(lines, "\n"), rest, lines[k]);
    }
    assert lines[0] == "MATCH: " + input.homeTeam + " vs " + input.awayTeam;
    assert lines[1] == "DATE: " + input.matchDate;
    assert lines[2] == "LIGUE: " + input.league;
  }
}
