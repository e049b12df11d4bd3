/** `AiService`: credit-checked predictions with a match cache, the prediction queries and
    the credit-charged chat. Each successful action takes exactly one credit and records
    exactly one usage transaction. */
module Ai {
  import opened Common
  import opened Strings
  import opened Tables
  import opened Users
  import AnthropicClient

  /** What `generatePrediction` produces (and what the cache holds). */
  datatype PredictionData = PredictionData(
    confidenceScore: real, homeWinProbability: real, drawProbability: real, awayWinProbability: real,
    predictedWinner: string, analysisText: string, keyFactors: seq<string>, modelVersion: string)

  /** `CreatePredictionDto` after validation; `None` for a property the body left out. The
      winner and the confidence also have a generated value, so for them `Some(None)` is an
      explicit `null`, which the spread copies over the generated one. */
  datatype PredictionRequest = PredictionRequest(
    matchId: int, projectId: Option<string>, predictedHomeScore: Option<int>, predictedAwayScore: Option<int>,
    predictedWinner: Option<Option<string>>, confidenceScore: Option<Option<real>>)

  /** A row of the `predictions` table; `matchId` is a NOT NULL column, so a row without one
      cannot be saved. */
  datatype Prediction = Prediction(
    id: string, userId: string, projectId: Option<string>, matchId: Option<int>,
    predictedHomeScore: Option<int>, predictedAwayScore: Option<int>, predictedWinner: Option<string>,
    confidenceScore: Option<real>, homeWinProbability: Option<real>, drawProbability: Option<real>,
    awayWinProbability: Option<real>, analysisText: Option<string>, keyFactors: Option<seq<string>>,
    modelVersion: Option<string>)

  datatype TransactionType = Purchase | Usage | Refund | Bonus

  datatype CreditTransaction = CreditTransaction(
    id: string, userId: string, amount: int, transactionType: TransactionType, description: string,
    predictionId: Option<string>)

  /** A cached value and the second at which Redis drops it. */
  datatype CacheEntry = CacheEntry(data: PredictionData, expiresAt: int)

  const CacheTtl := 3600
  const UsageDescription := "Prédiction générée"
  const NoCreditsForPrediction := "Crédits insuffisants pour créer une prédiction"
  const NoCreditsForChat := "Crédits insuffisants pour utiliser le chat IA"
  const NotConfigured := "Service IA non configuré"
  const InvalidReply := "Réponse invalide de l'IA"
  const ChatFailurePrefix := "Erreur lors de la génération de la réponse: "
  const PredictionForbidden := "Vous n'avez pas accès à cette prédiction"

  function PredictionNotFound(id: string): string {
    "Prédiction avec l'ID " + id + " non trouvée"
  }

  /** The Redis key of the cached prediction for a match. */
  function CacheKey(matchId: int): (key: string)
    ensures key == "prediction:match:" + IntToString(matchId)
  {
    "prediction:match:" + IntToString(matchId)
  }

  /** Different matches never share a cache entry. */
  lemma CacheKeyInjective(a: int, b: int)
    requires CacheKey(a) == CacheKey(b)
    ensures a == b
  {
    var p := "prediction:match:";
    CancelPrefix(p, IntToString(a), IntToString(b));
    var sa := IntToString(a);
    var sb := IntToString(b);
    if a < 0 && b < 0 {
      CancelPrefix("-", NatToString(-a), NatToString(-b));
      NatToStringInjective(-a, -b);
    } else if a >= 0 && b >= 0 {
      NatToStringInjective(a, b);
    } else if a < 0 {
      assert sa[0] == '-';
      assert sb[0] == NatToString(b)[0];
      DigitsOnly(b);
    } else {
      assert sb[0] == '-';
      DigitsOnly(a);
    }
  }

  /** A number is written with digits only. */
  lemma {:induction false} DigitsOnly(n: nat)
    ensures NatToString(n)[0] != '-'
    decreases n
  {
    if n >= 10 {
      DigitsOnly(n / 10);
    }
  }

  function PredictionIdOf(p: Prediction): string { p.id }

  /** The predictions `findAll` selects, oldest first: the user's own, and of the given
      project when its id is truthy. */
  function Requested(rows: seq<Prediction>, userId: string, projectId: Option<string>): (r: seq<Prediction>)
    ensures forall p :: p in r <==>
      p in rows && p.userId == userId && (TruthyString(projectId) ==> p.projectId == projectId)
  {
    Where(rows, (p: Prediction) => p.userId == userId && (TruthyString(projectId) ==> p.projectId == projectId))
  }

  /** A cached value is used while Redis still holds it. */
  predicate Live(cache: map<string, CacheEntry>, key: string, now: int) {
    key in cache && now < cache[key].expiresAt
  }

  /** `generatePrediction`: a fixed stand-in whose analysis text says whether a model client
      is configured. */
  function GeneratePrediction(configured: bool): (d: PredictionData)
    ensures d.homeWinProbability + d.drawProbability + d.awayWinProbability == 100.0
    ensures d.predictedWinner == "home"
    ensures d.homeWinProbability >= d.drawProbability && d.homeWinProbability >= d.awayWinProbability
    ensures d.analysisText == if configured then "Analyse générée par IA" else "Analyse générée"
  {
    PredictionData(75.0, 40.0, 30.0, 30.0, "home",
                   if configured then "Analyse générée par IA" else "Analyse générée",
                   ["Forme récente", "Confrontations directes"], "1.0")
  }

  /** `{ ...predictionData, ...dto, userId }` on a miss: the request's properties win over the
      generated ones, the caller's id over both. */
  function FreshPrediction(data: PredictionData, req: PredictionRequest, userId: string, id: string): (p: Prediction)
    ensures p.id == id && p.userId == userId && p.matchId == Some(req.matchId) && p.projectId == req.projectId
    ensures p.predictedHomeScore == req.predictedHomeScore && p.predictedAwayScore == req.predictedAwayScore
    ensures req.predictedWinner.None? ==> p.predictedWinner == Some(data.predictedWinner)
    ensures req.predictedWinner.Some? ==> p.predictedWinner == req.predictedWinner.value
    ensures req.confidenceScore.None? ==> p.confidenceScore == Some(data.confidenceScore)
    ensures req.confidenceScore.Some? ==> p.confidenceScore == req.confidenceScore.value
    ensures p.homeWinProbability == Some(data.homeWinProbability) && p.analysisText == Some(data.analysisText)
  {
    Prediction(id, userId, req.projectId, Some(req.matchId), req.predictedHomeScore, req.predictedAwayScore,
               if req.predictedWinner.Some? then req.predictedWinner.value else Some(data.predictedWinner),
               if req.confidenceScore.Some? then req.confidenceScore.value else Some(data.confidenceScore),
               Some(data.homeWinProbability), Some(data.drawProbability), Some(data.awayWinProbability),
               Some(data.analysisText), Some(data.keyFactors), Some(data.modelVersion))
  }

  /** The cache-hit copy as written: `{ ...cached, id: undefined, userId, projectId,
      createdAt: undefined }`, where the cached value is the generated data alone. */
  function HitCopyAsWritten(data: PredictionData, req: PredictionRequest, userId: string, id: string): Prediction {
    Prediction(id, userId, req.projectId, None, None, None, Some(data.predictedWinner),
               Some(data.confidenceScore), Some(data.homeWinProbability), Some(data.drawProbability),
               Some(data.awayWinProbability), Some(data.analysisText), Some(data.keyFactors), Some(data.modelVersion))
  }

  /** A row can be saved only with a match id. */
  predicate Saveable(p: Prediction) {
    p.matchId.Some?
  }

  /** As written, the copy made on a cache hit has no match id, so its save fails and the
      request errors instead of charging the user. */
  lemma HitCopyAsWrittenUnsaveable(data: PredictionData, req: PredictionRequest, userId: string, id: string)
    ensures !Saveable(HitCopyAsWritten(data, req, userId, id))
  {
  }

  /** The copy made on a cache hit, carrying the requested match id. */
  function HitCopy(data: PredictionData, req: PredictionRequest, userId: string, id: string): (p: Prediction)
    ensures Saveable(p) && p.matchId == Some(req.matchId)
    ensures p.id == id && p.userId == userId && p.projectId == req.projectId
    ensures p == HitCopyAsWritten(data, req, userId, id).(matchId := Some(req.matchId))
  {
    HitCopyAsWritten(data, req, userId, id).(matchId := Some(req.matchId))
  }

  /** A hit and a miss on the same generated data agree on every generated column; the
      request's own scores, winner and confidence are only taken on a miss. */
  lemma HitAgreesWithMiss(data: PredictionData, req: PredictionRequest, userId: string, id: string)
    requires req.predictedHomeScore.None? && req.predictedAwayScore.None?
    requires req.predictedWinner.None? && req.confidenceScore.None?
    ensures HitCopy(data, req, userId, id) == FreshPrediction(data, req, userId, id)
  {
  }

  /** The usage transaction `deductCredit` records; `predictionId || undefined`. */
  function UsageTransaction(id: string, userId: string, predictionId: Option<string>): (t: CreditTransaction)
    ensures t.amount == -1 && t.transactionType == Usage && t.userId == userId
    ensures t.predictionId == if TruthyString(predictionId) then predictionId else None
  {
    CreditTransaction(id, userId, -1, Usage, UsageDescription,
                      if TruthyString(predictionId) then predictionId else None)
  }

  /** The sum of the amounts of a user's transactions. */
  function AmountTotal(txs: seq<CreditTransaction>, userId: string): int
    decreases |txs|
  {
    if txs == [] then 0
    else AmountTotal(txs[..|txs| - 1], userId) + (if txs[|txs| - 1].userId == userId then txs[|txs| - 1].amount else 0)
  }

  /** A user's balance in the user table, when the user exists. */
  function CreditsOf(rows: seq<User>, userId: string): Option<int> {
    match FirstWith(rows, IdOf, userId)
    case None => None
    case Some(i) => Some(rows[i].creditsRemaining)
  }

  /** Taking a credit and recording its usage transaction keeps every user's credits minus
      the total of their transactions unchanged. */
  lemma {:induction false} ChargeKeepsLedger(rows: seq<User>, txs: seq<CreditTransaction>, userId: string,
                          txId: string, predictionId: Option<string>, other: string)
    ensures var rows' := WithCreditsMoved(rows, userId, -1);
      var txs' := txs + [UsageTransaction(txId, userId, predictionId)];
      && (CreditsOf(rows', other).Some? <==> CreditsOf(rows, other).Some?)
      && (CreditsOf(rows, other).Some? ==>
            CreditsOf(rows', other).value - AmountTotal(txs', other)
            == CreditsOf(rows, other).value - AmountTotal(txs, other))
  {
    var rows' := WithCreditsMoved(rows, userId, -1);
    var txs' := txs + [UsageTransaction(txId, userId, predictionId)];
    assert txs'[..|txs|] == txs;
    SameIds(rows, rows', other);
  }

  /** Tables with the same ids row by row find a key at the same row. */
  lemma {:induction false} SameIds(a: seq<User>, b: seq<User>, k: string)
    requires |a| == |b| && forall i :: 0 <= i < |a| ==> a[i].id == b[i].id
    ensures FirstWith(a, IdOf, k) == FirstWith(b, IdOf, k)
  {
    if a != [] {
      SameIds(a[1..], b[1..], k);
    }
  }

  class AiService {
    const users: UsersService
    /** Whether a model client was created (an API key was found). */
    const configured: bool
    var predictions: seq<Prediction>
    var nextPredictionId: nat
    var transactions: seq<CreditTransaction>
    var nextTransactionId: nat
    var cache: map<string, CacheEntry>

    ghost predicate Valid()
      reads this, users
    {
      && users.Valid()
      && DistinctBy(predictions, PredictionIdOf)
      && forall i :: 0 <= i < |predictions| ==> predictions[i].id in IssuedKeys(nextPredictionId)
    }

    /** The client exists when the environment or the configuration holds a key. */
    constructor(users: UsersService, envKey: Option<string>, configKey: Option<string>)
      requires users.Valid()
      ensures Valid() && this.users == users
      ensures configured == (TruthyString(envKey) || TruthyString(configKey))
      ensures predictions == [] && transactions == [] && cache == map[]
    {
      this.users := users;
      configured := TruthyString(envKey) || TruthyString(configKey);
      predictions := [];
      nextPredictionId := 0;
      transactions := [];
      nextTransactionId := 0;
      cache := map[];
    }

    /** `deductCredit`: one credit off, then one usage transaction. For an unknown user
        `updateCredits` throws NotFound and no transaction is saved. */
    method DeductCredit(userId: string, predictionId: Option<string>) returns (r: Result<User, HttpError>)
      requires Valid()
      modifies this, users
      ensures Valid()
      ensures predictions == old(predictions) && nextPredictionId == old(nextPredictionId) && cache == old(cache)
      ensures users.nextId == old(users.nextId)
      ensures old(users.FindOne(userId)).Err? ==>
        && r == old(users.FindOne(userId))
        && users.rows == old(users.rows)
        && transactions == old(transactions) && nextTransactionId == old(nextTransactionId)
      ensures old(users.FindOne(userId)).Ok? ==>
        && r.Ok? && r.value.creditsRemaining == old(users.FindOne(userId)).value.creditsRemaining - 1
        && users.rows == WithCreditsMoved(old(users.rows), userId, -1)
        && transactions == old(transactions) + [UsageTransaction(NatToString(old(nextTransactionId)), userId, predictionId)]
        && nextTransactionId == old(nextTransactionId) + 1
    {
      r := users.UpdateCredits(userId, -1);
      if r.Err? {
        return;
      }
      transactions := transactions + [UsageTransaction(NatToString(nextTransactionId), userId, predictionId)];
      nextTransactionId := nextTransactionId + 1;
    }

    /** `createPrediction`. No credits: Forbidden before the cache is even read. A live cache
        entry is copied for the caller without generating anything; otherwise a prediction
        is generated, saved and cached for an hour. Either way one credit and one usage
        transaction pay for the saved row. `now` is the Redis clock in seconds. */
    method CreatePrediction(userId: string, req: PredictionRequest, now: int) returns (r: Result<Prediction, HttpError>)
      requires Valid()
      modifies this, users
      ensures Valid()
      ensures var found := old(users.FindOne(userId));
        && (found.Err? ==> r == Err(found.error))
        && (found.Ok? && found.value.creditsRemaining <= 0 ==> r == Err(HttpError(Forbidden, NoCreditsForPrediction)))
        && (r.Err? ==>
              && users.rows == old(users.rows) && predictions == old(predictions)
              && transactions == old(transactions) && cache == old(cache))
        && (r.Ok? <==> found.Ok? && found.value.creditsRemaining > 0)
      ensures r.Ok? ==>
        var key := CacheKey(req.matchId);
        var id := NatToString(old(nextPredictionId));
        var generated := GeneratePrediction(configured);
        && r.value == (if Live(old(cache), key, now) then HitCopy(old(cache)[key].data, req, userId, id)
                       else FreshPrediction(generated, req, userId, id))
        && predictions == old(predictions) + [r.value]
        && cache == (if Live(old(cache), key, now) then old(cache)
                     else old(cache)[key := CacheEntry(generated, now + CacheTtl)])
        && users.rows == WithCreditsMoved(old(users.rows), userId, -1)
        && transactions == old(transactions) + [UsageTransaction(NatToString(old(nextTransactionId)), userId, Some(id))]
    {
      var found := users.FindOne(userId);
      if found.Err? {
        return Err(found.error);
      }
      if found.value.creditsRemaining <= 0 {
        return Err(HttpError(Forbidden, NoCreditsForPrediction));
      }
      var key := CacheKey(req.matchId);
      var id := NatToString(nextPredictionId);
      var saved: Prediction;
      if Live(cache, key, now) {
        saved := HitCopy(cache[key].data, req, userId, id);
      } else {
        var generated := GeneratePrediction(configured);
        saved := FreshPrediction(generated, req, userId, id);
        cache := cache[key := CacheEntry(generated, now + CacheTtl)];
      }
      NextKeyFresh(nextPredictionId);
      DistinctAppend(predictions, saved, PredictionIdOf);
      predictions := predictions + [saved];
      nextPredictionId := nextPredictionId + 1;
      var _ := DeductCredit(userId, Some(saved.id));
      r := Ok(saved);
    }

    /** `findAll`: the caller's predictions, of one project when a project id is given,
        newest first. */
    function FindAll(userId: string, projectId: Option<string>): (r: seq<Prediction>)
      reads this
      ensures r == Reversed(Requested(predictions, userId, projectId))
      ensures forall p :: p in r <==>
        p in predictions && p.userId == userId && (TruthyString(projectId) ==> p.projectId == projectId)
    {
      var mine := Requested(predictions, userId, projectId);
      ReversedSameRows(mine);
      Reversed(mine)
    }

    /** `findOne`: BadRequest for an unknown id, Forbidden for another user's prediction. */
    function FindOne(id: string, userId: string): (r: Result<Prediction, HttpError>)
      reads this
      ensures r == Err(HttpError(BadRequest, PredictionNotFound(id))) <==>
        forall i :: 0 <= i < |predictions| ==> predictions[i].id != id
      ensures r == Err(HttpError(Forbidden, PredictionForbidden)) <==>
        FirstWith(predictions, PredictionIdOf, id).Some?
        && predictions[FirstWith(predictions, PredictionIdOf, id).value].userId != userId
      ensures r.Ok? ==> r.value in predictions && r.value.id == id && r.value.userId == userId
      ensures r.Err? ==> r.error.kind in {BadRequest, Forbidden}
    {
      match FirstWith(predictions, PredictionIdOf, id)
      case None => Err(HttpError(BadRequest, PredictionNotFound(id)))
      case Some(i) =>
        if predictions[i].userId != userId then Err(HttpError(Forbidden, PredictionForbidden))
        else Ok(predictions[i])
    }

    /** `chatWithAi`: the credit and configuration checks, then the model's reply to the bare
        message. Only a text reply is charged; every failure of the call, including a reply
        without text, becomes a BadRequest that charges nothing. */
    method ChatWithAi(userId: string, message: string,
                      model: string -> Result<seq<AnthropicClient.ContentBlock>, string>)
      returns (r: Result<string, HttpError>)
      requires Valid()
      modifies this, users
      ensures Valid()
      ensures var found := old(users.FindOne(userId));
        && (found.Err? ==> r == Err(found.error))
        && (found.Ok? && found.value.creditsRemaining <= 0 ==> r == Err(HttpError(Forbidden, NoCreditsForChat)))
        && (found.Ok? && found.value.creditsRemaining > 0 && !configured ==> r == Err(HttpError(BadRequest, NotConfigured)))
        && (found.Ok? && found.value.creditsRemaining > 0 && configured ==>
              match model(message)
              case Err(e) => r == Err(HttpError(BadRequest, ChatFailurePrefix + e))
              case Ok(content) =>
                if content == [] then r == Err(HttpError(BadRequest, ChatFailurePrefix + AnthropicClient.NoContentBlock))
                else if content[0].OtherBlock? then r == Err(HttpError(BadRequest, ChatFailurePrefix + InvalidReply))
                else r == Ok(content[0].text))
      ensures predictions == old(predictions) && cache == old(cache)
      ensures r.Err? ==> users.rows == old(users.rows) && transactions == old(transactions)
      ensures r.Ok? ==>
        && users.rows == WithCreditsMoved(old(users.rows), userId, -1)
        && transactions == old(transactions) + [UsageTransaction(NatToString(old(nextTransactionId)), userId, None)]
    {
      var found := users.FindOne(userId);
      if found.Err? {
        return Err(found.error);
      }
      if found.value.creditsRemaining <= 0 {
        return Err(HttpError(Forbidden, NoCreditsForChat));
      }
      if !configured {
        return Err(HttpError(BadRequest, NotConfigured));
      }
      var reply := model(message);
      if reply.Err? {
        return Err(HttpError(BadRequest, ChatFailurePrefix + reply.error));
      }
      var content := reply.value;
      if content == [] {
        return Err(HttpError(BadRequest, ChatFailurePrefix + AnthropicClient.NoContentBlock));
      }
      if content[0].OtherBlock? {
        return Err(HttpError(BadRequest, ChatFailurePrefix + InvalidReply));
      }
      var _ := DeductCredit(userId, None);
      r := Ok(content[0].text);
    }
  }
}
