/** The system prompt of the conversational assistant (`buildChatPrompt`). */
module ChatAssistantPrompt {
  import opened Common
  import opened Strings

  datatype Role = UserRole | AssistantRole

  datatype HistoryMessage = HistoryMessage(role: Role, content: string, timestamp: string)

  datatype RecentPrediction = RecentPrediction(matchLabel: string, prediction: string, result: Option<string>)

  /** `ChatContext`: everything but `userId` is optional. */
  datatype ChatContext = ChatContext(
    userId: string,
    userName: Option<string>,
    favoriteTeams: Option<seq<string>>,
    followedLeagues: Option<seq<string>>,
    recentPredictions: Option<seq<RecentPrediction>>,
    conversationHistory: Option<seq<HistoryMessage>>)

  /** The horizontal rule framing each section title. */
  const Rule := "───────────────────────────────────────────────────────────────"

  /** A section title between two rules, preceded by a blank line. */
  function Banner(title: string): string {
    "\n\n" + Rule + "\n" + title + "\n" + Rule + "\n"
  }

  /** The fixed wording of the prompt: the opening lines and the closing instructions.
      The layout lemmas below hold for any wording. */
  datatype Wording = Wording(preamble: string, instructions: string)

  const ChatWording := Wording(
    @"Tu es FootPredict AI, un assistant expert en football pour la plateforme FootPredict AI.
Tu es intelligent, amical, et tu utilises des données réelles pour répondre aux questions.",
    @"Réponds à la question de l'utilisateur en suivant ces règles:

1. **Précision**: Base-toi sur les données réelles et les statistiques
2. **Clarté**: Sois clair et concis, mais complet
3. **Personnalisation**: Adapte ta réponse au contexte utilisateur (équipes favorites, etc.)
4. **Ton**: Sois amical et professionnel, comme un expert qui explique
5. **Langue**: Réponds toujours en français
6. **Contexte**: Utilise l'historique de conversation pour comprendre le contexte
7. **Honnêteté**: Si tu ne sais pas quelque chose, dis-le clairement

TYPES DE QUESTIONS QUE TU PEUX TRAITER:

✅ **Prédictions de matchs**
   - ""Qui va gagner entre PSG et OM ?""
   - ""Quel sera le score du match Real vs Barca ?""
   - ""Pourquoi l'IA prédit une victoire du Liverpool ?""

✅ **Analyses et statistiques**
   - ""Quelle équipe a la meilleure forme en Ligue 1 ?""
   - ""Compare les statistiques d'attaque du Real et du Barca""
   - ""Quels sont les facteurs clés pour le match X vs Y ?""

✅ **Explications de prédictions**
   - ""Explique-moi pourquoi l'IA a prédit ce score""
   - ""Quels facteurs ont influencé cette prédiction ?""

✅ **Conseils et recommandations**
   - ""Quels matchs devrais-je suivre ce weekend ?""
   - ""Quelle équipe a le plus de valeur en ce moment ?""

✅ **Questions générales sur le football**
   - ""Qu'est-ce que la xG ?""
   - ""Comment fonctionne le système de prédiction ?""

❌ **Évite**:
- Les conseils de paris illégaux
- Les informations non vérifiées
- Les réponses trop longues (max 300 mots)

FORMAT DE RÉPONSE:
- Réponds directement, sans préambule
- Utilise des listes à puces si pertinent
- Structure ta réponse clairement
- Termine par une question ouverte si approprié pour engager la conversation

Réponds maintenant à la question de l'utilisateur:")

  const NoHistory := "Aucune conversation précédente"

  /** How many of the latest messages and predictions the prompt shows. */
  const HistoryWindow := 5
  const PredictionWindow := 3

  // ---------------------------------------------------------------------------
  // Conversation history
  // ---------------------------------------------------------------------------

  function RoleLabel(role: Role): string {
    match role
    case UserRole => "UTILISATEUR"
    case AssistantRole => "ASSISTANT"
  }

  function HistoryLine(m: HistoryMessage): string {
    RoleLabel(m.role) + ": " + m.content
  }

  function HistoryLines(ms: seq<HistoryMessage>): (lines: seq<string>)
    ensures |lines| == |ms|
    ensures forall i :: 0 <= i < |ms| ==> lines[i] == HistoryLine(ms[i])
  {
    seq(|ms|, i requires 0 <= i < |ms| => HistoryLine(ms[i]))
  }

  /** The history block: a placeholder sentence when there is no history at all, the
      empty string for an empty one, otherwise one line per message of the last five. */
  function HistoryText(history: Option<seq<HistoryMessage>>): (text: string)
    ensures history.None? ==> text == NoHistory
    ensures history == Some([]) ==> text == ""
    ensures history.Some? && |history.value| <= HistoryWindow ==>
      text == Join(HistoryLines(history.value), "\n")
    ensures history.Some? && |history.value| > HistoryWindow ==>
      text == Join(HistoryLines(history.value[|history.value| - HistoryWindow..]), "\n")
  {
    match history
    case None => NoHistory
    case Some(h) => Join(HistoryLines(LastN(h, HistoryWindow)), "\n")
  }

  /** Messages older than the last five leave the history block unchanged. */
  lemma OlderMessagesIgnored(older: seq<HistoryMessage>, recent: seq<HistoryMessage>)
    requires |recent| >= HistoryWindow
    ensures HistoryText(Some(older + recent)) == HistoryText(Some(recent))
  {
    var all := older + recent;
    assert LastN(all, HistoryWindow) == LastN(recent, HistoryWindow) by {
      assert all[|all| - HistoryWindow..] == recent[|recent| - HistoryWindow..];
    }
  }

  /** The newest message is always shown, labelled by its role. */
  lemma LatestMessageShown(history: seq<HistoryMessage>)
    requires history != []
    ensures Contains(HistoryText(Some(history)), HistoryLine(history[|history| - 1]))
  {
    var shown := LastN(history, HistoryWindow);
    JoinContains(HistoryLines(shown), "\n", |shown| - 1);
  }

  // ---------------------------------------------------------------------------
  // User information
  // ---------------------------------------------------------------------------

  /** `- <heading>: <items joined by ", ">` for a non-empty list, nothing otherwise. */
  function ListLine(heading: string, items: Option<seq<string>>): (line: string)
    ensures line == "" <==> !NonEmptyList(items)
    ensures NonEmptyList(items) ==> line == "- " + heading + ": " + Join(items.value, ", ")
  {
    if NonEmptyList(items) then "- " + heading + ": " + Join(items.value, ", ") else ""
  }

  /** The name line, present exactly for a non-empty user name. */
  function NameLine(userName: Option<string>): (line: string)
    ensures line == "" <==> !TruthyString(userName)
    ensures TruthyString(userName) ==> line == "- Nom: " + userName.value
  {
    if TruthyString(userName) then "- Nom: " + userName.value else ""
  }

  /** One recent prediction; the result is shown only when it is a non-empty string. */
  function PredictionLine(p: RecentPrediction): (line: string)
    ensures TruthyString(p.result) ==>
      line == "  • " + p.matchLabel + ": " + p.prediction + " (Résultat: " + p.result.value + ")"
    ensures !TruthyString(p.result) ==> line == "  • " + p.matchLabel + ": " + p.prediction
  {
    "  • " + p.matchLabel + ": " + p.prediction + (if TruthyString(p.result) then " (Résultat: " + p.result.value + ")" else "")
  }

  function PredictionLines(ps: seq<RecentPrediction>): (lines: seq<string>)
    ensures |lines| == |ps|
    ensures forall i :: 0 <= i < |ps| ==> lines[i] == PredictionLine(ps[i])
  {
    seq(|ps|, i requires 0 <= i < |ps| => PredictionLine(ps[i]))
  }

  /** The recent-predictions block: empty without predictions, otherwise the last three. */
  function PredictionsBlock(predictions: Option<seq<RecentPrediction>>): (block: string)
    ensures block == "" <==> !NonEmptyList(predictions)
    ensures NonEmptyList(predictions) ==>
      block == "\n- Prédictions récentes:\n" + Join(PredictionLines(LastN(predictions.value, PredictionWindow)), "\n") + "\n"
  {
    if NonEmptyList(predictions) then
      "\n- Prédictions récentes:\n" + Join(PredictionLines(LastN(predictions.value, PredictionWindow)), "\n") + "\n"
    else ""
  }

  /** Predictions older than the last three leave the block unchanged. */
  lemma OlderPredictionsIgnored(older: seq<RecentPrediction>, recent: seq<RecentPrediction>)
    requires |recent| >= PredictionWindow
    ensures PredictionsBlock(Some(older + recent)) == PredictionsBlock(Some(recent))
  {
    var all := older + recent;
    assert LastN(all, PredictionWindow) == LastN(recent, PredictionWindow) by {
      assert all[|all| - PredictionWindow..] == recent[|recent| - PredictionWindow..];
    }
  }

  /** The user information lines after the name line. */
  function InfoAfterName(context: ChatContext): string {
    "\n" + ListLine("Équipes favorites", context.favoriteTeams) + "\n"
    + ListLine("Ligues suivies", context.followedLeagues) + "\n"
    + PredictionsBlock(context.recentPredictions) + "\n"
  }

  function UserInfo(context: ChatContext): string {
    "\nINFORMATIONS UTILISATEUR:\n" + NameLine(context.userName) + InfoAfterName(context)
  }

  // ---------------------------------------------------------------------------
  // The whole prompt
  // ---------------------------------------------------------------------------

  /** The conversation history under its title. */
  function HistorySection(context: ChatContext): string {
    Banner("HISTORIQUE DE LA CONVERSATION") + HistoryText(context.conversationHistory)
  }

  const QuestionTitle := "QUESTION ACTUELLE DE L'UTILISATEUR"
  const InstructionsTitle := "TES INSTRUCTIONS"

  /** Everything in front of the user's message: it does not depend on the message. */
  function BeforeQuestion(w: Wording, context: ChatContext): string {
    w.preamble + "\n\n" + UserInfo(context) + HistorySection(context) + Banner(QuestionTitle)
  }

  /** Everything after the user's message: the fixed instructions. */
  function AfterQuestion(w: Wording): string {
    Banner(InstructionsTitle) + ("\n" + w.instructions)
  }

  function Layout(w: Wording, userMessage: string, context: ChatContext): string {
    BeforeQuestion(w, context) + userMessage + AfterQuestion(w)
  }

  /** `buildChatPrompt`. */
  function BuildChatPrompt(userMessage: string, context: ChatContext): string {
    Layout(ChatWording, userMessage, context)
  }

  /** The message sits verbatim between the question title and the instructions title. */
  lemma MessageVerbatim(w: Wording, userMessage: string, context: ChatContext)
    ensures Contains(Layout(w, userMessage, context),
                     Banner(QuestionTitle) + userMessage + Banner(InstructionsTitle))
  {
    ContainsSpan(w.preamble + "\n\n" + UserInfo(context) + HistorySection(context),
      Banner(QuestionTitle), userMessage, Banner(InstructionsTitle), "\n" + w.instructions);
  }

  /** The message can be read back from the prompt: two messages with the same context
      give the same prompt only if they are equal. */
  lemma MessageRecoverable(w: Wording, m1: string, m2: string, context: ChatContext)
    requires Layout(w, m1, context) == Layout(w, m2, context)
    ensures m1 == m2
  {
    CancelAround(BeforeQuestion(w, context), m1, m2, AfterQuestion(w));
  }

  /** A non-empty user name shows up as the name line. */
  lemma NameShown(w: Wording, userMessage: string, context: ChatContext)
    requires TruthyString(context.userName)
    ensures Contains(Layout(w, userMessage, context), "- Nom: " + context.userName.value)
  {
    var line := NameLine(context.userName);
    var info := UserInfo(context);
    ContainsMiddle("\nINFORMATIONS UTILISATEUR:\n", line, InfoAfterName(context));
    ContainsWithin(w.preamble + "\n\n", info, HistorySection(context), line);
    ContainsLeft(w.preamble + "\n\n" + info + HistorySection(context), Banner(QuestionTitle), line);
    ContainsLeft(BeforeQuestion(w, context), userMessage, line);
    ContainsLeft(BeforeQuestion(w, context) + userMessage, AfterQuestion(w), line);
  }
}
