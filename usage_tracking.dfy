/** Usage logging, statistics and the monthly per-tier limits (`UsageTrackingService`). */
module UsageTracking {
  import opened Common
  import CostCalculator
  import Tables

  const Prediction := "prediction"
  const Chat := "chat"
  const Analysis := "analysis"
  const Content := "content"

  /** A row of the usage log. `tokensUsed` and `costUsd` may be missing (null) in a stored
      row; `createdAt` is a time in milliseconds. */
  datatype UsageLog = UsageLog(
    userId: string, featureType: string, tokensUsed: Option<int>, costUsd: Option<real>,
    modelVersion: string, createdAt: int)

  // ---------------------------------------------------------------------------
  // logUsage and getUserUsage
  // ---------------------------------------------------------------------------

  /** The rows of the user since `since`, in the order given. */
  function UserRows(rows: seq<UsageLog>, userId: string, since: int): (r: seq<UsageLog>)
    ensures |r| <= |rows|
    ensures forall x :: x in r <==> x in rows && x.userId == userId && x.createdAt >= since
    decreases |rows|
  {
    if rows == [] then []
    else
      var last := rows[|rows| - 1];
      UserRows(rows[..|rows| - 1], userId, since)
      + (if last.userId == userId && last.createdAt >= since then [last] else [])
  }

  /** The query of `getUserUsage`: the user's rows created since `since`, newest first. */
  function UsageQuery(rows: seq<UsageLog>, userId: string, since: int): seq<UsageLog> {
    Tables.Reversed(UserRows(rows, userId, since))
  }

  /** `getUserUsage`: a failed read, or one that returns no data, yields no rows. */
  function GetUserUsage(fetched: Result<Option<seq<UsageLog>>, string>): (usage: seq<UsageLog>)
    ensures fetched.Err? || fetched == Ok(None) ==> usage == []
    ensures fetched.Ok? && fetched.value.Some? ==> usage == fetched.value.value
  {
    match fetched
    case Err(_) => []
    case Ok(None) => []
    case Ok(Some(data)) => data
  }

  /** The row `logUsage` inserts. */
  function LogRow(userId: string, featureType: string, inputTokens: int, outputTokens: int,
                  modelVersion: string, createdAt: int): (row: UsageLog)
    ensures row.tokensUsed == Some(inputTokens + outputTokens)
    ensures row.costUsd == Some(CostCalculator.CalculateCost(modelVersion, inputTokens, outputTokens))
  {
    UsageLog(userId, featureType, Some(inputTokens + outputTokens),
             Some(CostCalculator.CalculateCost(modelVersion, inputTokens, outputTokens)),
             modelVersion, createdAt)
  }

  /** The `ai_usage_logs` table. */
  class UsageLogTable {
    var rows: seq<UsageLog>

    constructor()
      ensures rows == []
    {
      rows := [];
    }

    /** `logUsage`: appends one row when the insert succeeds; a failed insert is swallowed and
        leaves the table as it was. `createdAt` is the database clock; `insertSucceeds`
        is the outcome of the insert. */
    method LogUsage(userId: string, featureType: string, inputTokens: int, outputTokens: int,
                    modelVersion: string, createdAt: int, insertSucceeds: bool)
      modifies this
      ensures insertSucceeds ==>
        rows == old(rows) + [LogRow(userId, featureType, inputTokens, outputTokens, modelVersion, createdAt)]
      ensures !insertSucceeds ==> rows == old(rows)
    {
      if insertSucceeds {
        rows := rows + [LogRow(userId, featureType, inputTokens, outputTokens, modelVersion, createdAt)];
      }
    }
  }

  // ---------------------------------------------------------------------------
  // getUserStats
  // ---------------------------------------------------------------------------

  /** `value || 0`. */
  function TokensOf(log: UsageLog): int {
    if log.tokensUsed.Some? then log.tokensUsed.value else 0
  }

  function CostOf(log: UsageLog): real {
    if log.costUsd.Some? then log.costUsd.value else 0.0
  }

  function TotalTokens(usage: seq<UsageLog>): int {
    if usage == [] then 0 else TokensOf(usage[0]) + TotalTokens(usage[1..])
  }

  function TotalCost(usage: seq<UsageLog>): real {
    if usage == [] then 0.0 else CostOf(usage[0]) + TotalCost(usage[1..])
  }

  /** The number of rows for `feature`. */
  function CountFeature(usage: seq<UsageLog>, feature: string): (n: nat)
    ensures n <= |usage|
  {
    if usage == [] then 0
    else (if usage[0].featureType == feature then 1 else 0) + CountFeature(usage[1..], feature)
  }

  predicate KnownFeature(feature: string) {
    feature == Prediction || feature == Chat || feature == Analysis || feature == Content
  }

  /** The number of rows for none of the four features. */
  function CountOther(usage: seq<UsageLog>): nat {
    if usage == [] then 0
    else (if KnownFeature(usage[0].featureType) then 0 else 1) + CountOther(usage[1..])
  }

  datatype Stats = Stats(
    totalRequests: nat, totalCost: real, totalTokens: int,
    prediction: nat, chat: nat, analysis: nat, content: nat)

  /** `getUserStats` over the rows `getUserUsage` returned. */
  function GetUserStats(usage: seq<UsageLog>): (s: Stats)
    ensures s.totalRequests == |usage|
    ensures s.totalTokens == TotalTokens(usage) && s.totalCost == TotalCost(usage)
    ensures s.prediction == CountFeature(usage, Prediction) && s.chat == CountFeature(usage, Chat)
    ensures s.analysis == CountFeature(usage, Analysis) && s.content == CountFeature(usage, Content)
  {
    Stats(|usage|, TotalCost(usage), TotalTokens(usage),
          CountFeature(usage, Prediction), CountFeature(usage, Chat),
          CountFeature(usage, Analysis), CountFeature(usage, Content))
  }

  /** Every row is counted under exactly one feature, or under none of the four. */
  lemma {:induction false} FeatureCountsPartition(usage: seq<UsageLog>)
    ensures CountFeature(usage, Prediction) + CountFeature(usage, Chat)
          + CountFeature(usage, Analysis) + CountFeature(usage, Content)
          + CountOther(usage) == |usage|
  {
    if usage != [] {
      FeatureCountsPartition(usage[1..]);
    }
  }

  /** A failed read gives empty statistics. */
  lemma FailedReadGivesZeroStats(error: string)
    ensures GetUserStats(GetUserUsage(Err(error))) == Stats(0, 0.0, 0, 0, 0, 0, 0)
  {
  }

  /** Logging one request, in the window of the query, adds one request and its tokens to the
      user's statistics. */
  lemma {:induction false} LoggedRequestCounted(
    rows: seq<UsageLog>, userId: string, since: int,
    featureType: string, inputTokens: int, outputTokens: int, modelVersion: string, createdAt: int)
    requires createdAt >= since
    ensures var before := GetUserStats(UsageQuery(rows, userId, since));
      var row := LogRow(userId, featureType, inputTokens, outputTokens, modelVersion, createdAt);
      var after := GetUserStats(UsageQuery(rows + [row], userId, since));
      && after.totalRequests == before.totalRequests + 1
      && after.totalTokens == before.totalTokens + inputTokens + outputTokens
      && after.totalCost == before.totalCost + CostCalculator.CalculateCost(modelVersion, inputTokens, outputTokens)
  {
    var row := LogRow(userId, featureType, inputTokens, outputTokens, modelVersion, createdAt);
    var old_ := UserRows(rows, userId, since);
    assert (rows + [row])[..|rows|] == rows;
    assert UserRows(rows + [row], userId, since) == old_ + [row];
    assert (old_ + [row])[..|old_|] == old_;
    var q := Tables.Reversed(old_ + [row]);
    assert q == [row] + Tables.Reversed(old_);
    assert q[1..] == Tables.Reversed(old_);
  }

  // ---------------------------------------------------------------------------
  // checkLimit
  // ---------------------------------------------------------------------------

  /** A monthly allowance: a number of requests, or no limit at all. */
  datatype Limit = Finite(n: int) | Unlimited

  /** The tier table; an unknown tier or feature gets an allowance of 0. */
  function LimitFor(tier: string, feature: string): (l: Limit)
    ensures !KnownFeature(feature) || tier !in {"free", "pro", "premium"} ==> l == Finite(0)
    ensures tier == "premium" && KnownFeature(feature) ==> l == Unlimited
    ensures l.Finite? ==> l.n >= 0
  {
    if !KnownFeature(feature) then Finite(0)
    else if tier == "free" then
      Finite(if feature == Prediction then 10 else if feature == Chat then 50 else if feature == Analysis then 5 else 0)
    else if tier == "pro" then
      Finite(if feature == Prediction then 100 else if feature == Chat then 500 else if feature == Analysis then 50 else 5)
    else if tier == "premium" then Unlimited
    else Finite(0)
  }

  /** The free tier gives exactly a tenth of the pro allowance for predictions, chat and
      analysis, and no content generation at all; the pro tier allows 5 contents. */
  lemma TierTable()
    ensures LimitFor("free", Prediction) == Finite(10) && LimitFor("pro", Prediction) == Finite(100)
    ensures LimitFor("free", Chat) == Finite(50) && LimitFor("pro", Chat) == Finite(500)
    ensures LimitFor("free", Analysis) == Finite(5) && LimitFor("pro", Analysis) == Finite(50)
    ensures LimitFor("free", Content) == Finite(0) && LimitFor("pro", Content) == Finite(5)
  {
  }

  /** The rows of `feature` created since the start of the month. */
  function MonthlyCount(usage: seq<UsageLog>, feature: string, startOfMonth: int): (n: nat)
    ensures n <= |usage|
    decreases |usage|
  {
    if usage == [] then 0
    else
      var last := usage[|usage| - 1];
      MonthlyCount(usage[..|usage| - 1], feature, startOfMonth)
      + (if last.featureType == feature && last.createdAt >= startOfMonth then 1 else 0)
  }

  datatype LimitCheck = LimitCheck(allowed: bool, remaining: Option<int>)

  /** `checkLimit` over the rows `getUserUsage` returned. */
  function CheckLimit(tier: string, feature: string, usage: seq<UsageLog>, startOfMonth: int): (r: LimitCheck)
    ensures LimitFor(tier, feature).Unlimited? ==> r == LimitCheck(true, None)
    ensures LimitFor(tier, feature).Finite? ==>
      var left := LimitFor(tier, feature).n - MonthlyCount(usage, feature, startOfMonth);
      && (r.allowed <==> left > 0)
      && r.remaining == Some(if left > 0 then left else 0)
    ensures r.allowed && r.remaining.Some? ==> r.remaining.value >= 1
    ensures !r.allowed ==> r.remaining == Some(0)
  {
    match LimitFor(tier, feature)
    case Unlimited => LimitCheck(true, None)
    case Finite(limit) =>
      var left := limit - MonthlyCount(usage, feature, startOfMonth);
      LimitCheck(left > 0, Some(if left > 0 then left else 0))
  }

  /** The free tier never allows content generation, whatever the usage. */
  lemma FreeContentNeverAllowed(usage: seq<UsageLog>, startOfMonth: int)
    ensures !CheckLimit("free", Content, usage, startOfMonth).allowed
  {
  }

  /** When usage cannot be read, a finite allowance is checked as if nothing had been used. */
  lemma FailedReadCountsNothing(tier: string, feature: string, error: string, startOfMonth: int)
    ensures CheckLimit(tier, feature, GetUserUsage(Err(error)), startOfMonth)
      == match LimitFor(tier, feature)
         case Unlimited => LimitCheck(true, None)
         case Finite(n) => LimitCheck(n > 0, Some(n))
  {
  }

  /** One more request never increases what is left. */
  lemma OneMoreRequestNeverHelps(tier: string, feature: string, usage: seq<UsageLog>, log: UsageLog, startOfMonth: int)
    requires LimitFor(tier, feature).Finite?
    ensures CheckLimit(tier, feature, usage + [log], startOfMonth).remaining.value
         <= CheckLimit(tier, feature, usage, startOfMonth).remaining.value
    ensures CheckLimit(tier, feature, usage + [log], startOfMonth).allowed
        ==> CheckLimit(tier, feature, usage, startOfMonth).allowed
  {
    assert (usage + [log])[..|usage|] == usage;
  }
}
