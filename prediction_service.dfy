/** The front-end prediction service: a process-local cache of predictions in front of
    the model call, with validation of the parsed reply (`PredictionService`). */
module PredictionServiceModel {
  import opened Common
  import opened Strings
  import opened Json
  import opened AnthropicClient
  import opened MatchPredictionPrompt

  /** A cached prediction and its expiry time in milliseconds. */
  datatype CacheEntry = CacheEntry(data: JsonValue, expires: int)

  /** One hour, in milliseconds. */
  const CacheTtl := 3600000

  const NoJsonFound := "No JSON found in Claude response"
  const InvalidStructure := "Invalid prediction structure"
  const FailurePrefix := "Failed to generate prediction: "
  /** What the runtime raises when a field of a parsed `null` is read. */
  const NullPrediction := "Cannot read properties of null (reading 'predictedHomeScore')"

  // ---------------------------------------------------------------------------
  // Keys and validation
  // ---------------------------------------------------------------------------

  predicate NoColon(s: string) {
    forall i :: 0 <= i < |s| ==> s[i] != ':'
  }

  /** `getCacheKey`. */
  function CacheKey(input: MatchPredictionInput): (key: string)
    ensures |key| >= |"prediction:"| && key[..|"prediction:"|] == "prediction:"
  {
    "prediction:" + input.homeTeam + ":" + input.awayTeam + ":" + input.matchDate
  }

  /** After the prefix the key holds home team, away team and date, separated by ':'. */
  lemma CacheKeyFields(input: MatchPredictionInput)
    ensures var key := CacheKey(input);
      var h := |"prediction:"| + |input.homeTeam|;
      var a := h + 1 + |input.awayTeam|;
      && |key| == a + 1 + |input.matchDate|
      && key[..|"prediction:"|] == "prediction:"
      && key[|"prediction:"|..h] == input.homeTeam && key[h] == ':'
      && key[h + 1..a] == input.awayTeam && key[a] == ':'
      && key[a + 1..] == input.matchDate
  {
  }

  /** Team names without a colon identify the match: equal keys mean the same teams and date. */
  lemma CacheKeyDeterminesMatch(a: MatchPredictionInput, b: MatchPredictionInput)
    requires NoColon(a.homeTeam) && NoColon(a.awayTeam) && NoColon(b.homeTeam) && NoColon(b.awayTeam)
    requires CacheKey(a) == CacheKey(b)
    ensures a.homeTeam == b.homeTeam && a.awayTeam == b.awayTeam && a.matchDate == b.matchDate
  {
    var p := "prediction:";
    assert CacheKey(a) == p + (a.homeTeam + [':'] + (a.awayTeam + [':'] + a.matchDate));
    assert CacheKey(b) == p + (b.homeTeam + [':'] + (b.awayTeam + [':'] + b.matchDate));
    CancelPrefix(p, a.homeTeam + [':'] + (a.awayTeam + [':'] + a.matchDate),
                    b.homeTeam + [':'] + (b.awayTeam + [':'] + b.matchDate));
    SplitAtSeparator(a.homeTeam, a.awayTeam + [':'] + a.matchDate,
                     b.homeTeam, b.awayTeam + [':'] + b.matchDate, ':');
    SplitAtSeparator(a.awayTeam, a.matchDate, b.awayTeam, b.matchDate, ':');
  }

  /** The five checks of `validatePrediction`; probabilities and the winner are not checked. */
  predicate ValidPrediction(v: JsonValue) {
    && v.JObject?
    && IsNumberField(v.fields, "predictedHomeScore")
    && IsNumberField(v.fields, "predictedAwayScore")
    && IsNumberField(v.fields, "confidenceScore")
    && IsTruthyField(v.fields, "analysisText")
    && IsArrayField(v.fields, "keyFactors")
  }

  /** `validatePrediction`: the error it raises, if any. Reading a field of `null` fails
      in the runtime before any check; any other non-object has none of the fields. */
  function ValidationError(v: JsonValue): (e: Option<string>)
    ensures e.None? <==> ValidPrediction(v)
    ensures e.Some? ==> e.value == (if v.JNull? then NullPrediction else InvalidStructure)
  {
    if v.JNull? then Some(NullPrediction)
    else if ValidPrediction(v) then None
    else Some(InvalidStructure)
  }

  /** The fields that are not checked can hold anything. */
  lemma UncheckedFieldsIgnored(fields: map<string, JsonValue>, key: string, value: JsonValue)
    requires key !in {"predictedHomeScore", "predictedAwayScore", "confidenceScore", "analysisText", "keyFactors"}
    ensures ValidPrediction(JObject(fields[key := value])) == ValidPrediction(JObject(fields))
  {
    var g := fields[key := value];
    assert Field(g, "predictedHomeScore") == Field(fields, "predictedHomeScore");
  }

  // ---------------------------------------------------------------------------
  // The reply
  // ---------------------------------------------------------------------------

  function Wrapped(message: string): string {
    FailurePrefix + message
  }

  predicate IsWrapped(message: string) {
    |message| >= |FailurePrefix| && message[..|FailurePrefix|] == FailurePrefix
  }

  /** The body of the `try` block: take the text of the reply, cut out the brace span,
      parse it and validate it; every error on the way is wrapped. */
  function PredictionFromReply(
    reply: Result<seq<ContentBlock>, string>,
    parse: string -> Result<JsonValue, string>): (r: Result<JsonValue, string>)
    ensures r.Err? ==> IsWrapped(r.error)
    ensures r.Ok? ==> ValidPrediction(r.value)
    ensures r.Ok? ==>
      && reply.Ok? && ReplyText(reply.value).Ok?
      && JsonSpan(ReplyText(reply.value).value).Some?
      && parse(JsonSpan(ReplyText(reply.value).value).value) == r
    ensures reply.Ok? && ReplyText(reply.value).Ok? && JsonSpan(ReplyText(reply.value).value).None? ==>
      r == Err(Wrapped(NoJsonFound))
  {
    match reply
    case Err(e) => Err(Wrapped(e))
    case Ok(content) =>
      match ReplyText(content)
      case Err(e) => Err(Wrapped(e))
      case Ok(text) =>
        match JsonSpan(text)
        case None => Err(Wrapped(NoJsonFound))
        case Some(span) =>
          match parse(span)
          case Err(e) => Err(Wrapped(e))
          case Ok(v) =>
            match ValidationError(v)
            case Some(e) => Err(Wrapped(e))
            case None => Ok(v)
  }

  /** Every path through `PredictionFromReply`: a failed call, a reply without text, a text
      without braces, a span that does not parse and a parsed value that fails validation each
      give their own wrapped error; a valid parsed span is the result. */
  lemma PredictionFromReplyCases(reply: Result<seq<ContentBlock>, string>, parse: string -> Result<JsonValue, string>)
    ensures reply.Err? ==> PredictionFromReply(reply, parse) == Err(Wrapped(reply.error))
    ensures reply.Ok? && ReplyText(reply.value).Err? ==>
      PredictionFromReply(reply, parse) == Err(Wrapped(ReplyText(reply.value).error))
    ensures reply.Ok? && ReplyText(reply.value).Ok? && JsonSpan(ReplyText(reply.value).value).Some? ==>
      var span := JsonSpan(ReplyText(reply.value).value).value;
      && (parse(span).Err? ==> PredictionFromReply(reply, parse) == Err(Wrapped(parse(span).error)))
      && (parse(span).Ok? && ValidationError(parse(span).value).Some? ==>
            PredictionFromReply(reply, parse) == Err(Wrapped(ValidationError(parse(span).value).value)))
      && (parse(span).Ok? && ValidationError(parse(span).value).None? ==>
            PredictionFromReply(reply, parse) == parse(span))
  {
  }

  // ---------------------------------------------------------------------------
  // The cache
  // ---------------------------------------------------------------------------

  /** An entry is served only while its expiry lies strictly in the future. */
  predicate Live(cache: map<string, CacheEntry>, key: string, now: int) {
    key in cache && cache[key].expires > now
  }

  /** What a read of `key` at time `now` serves. */
  function Lookup(cache: map<string, CacheEntry>, key: string, now: int): (r: Option<JsonValue>)
    ensures r.Some? <==> Live(cache, key, now)
    ensures r.Some? ==> r.value == cache[key].data
  {
    if Live(cache, key, now) then Some(cache[key].data) else None
  }

  /** The cache after the sweep at time `now`: exactly the entries that are still live,
      unchanged. */
  function Swept(cache: map<string, CacheEntry>, now: int): (r: map<string, CacheEntry>)
    ensures forall k :: k in r <==> Live(cache, k, now)
    ensures forall k :: k in r ==> k in cache && r[k] == cache[k]
  {
    map k | k in cache && cache[k].expires > now :: cache[k]
  }

  /** The sweep and the read agree on the expiry boundary: sweeping at `now` changes
      nothing that a read at `now` or later would see. */
  lemma SweepInvisibleToReads(cache: map<string, CacheEntry>, now: int, later: int, key: string)
    requires now <= later
    ensures Lookup(Swept(cache, now), key, later) == Lookup(cache, key, later)
  {
  }

  /** A second sweep at the same time removes nothing more. */
  lemma SweepIdempotent(cache: map<string, CacheEntry>, now: int)
    ensures Swept(Swept(cache, now), now) == Swept(cache, now)
  {
    assert Swept(Swept(cache, now), now).Keys == Swept(cache, now).Keys;
  }

  /** An entry written at `savedAt` is served until just before `savedAt + CacheTtl`;
      at that instant it has expired. */
  lemma EntryLifetime(cache: map<string, CacheEntry>, key: string, data: JsonValue, savedAt: int, now: int)
    ensures Lookup(cache[key := CacheEntry(data, savedAt + CacheTtl)], key, now)
      == if now < savedAt + CacheTtl then Some(data) else None
  {
  }

  class PredictionService {
    var cache: map<string, CacheEntry>
    /** The wording of the prompts this service sends; the service of the application
        is built with `PredictionWording`, the wording of `buildMatchPredictionPrompt`. */
    const wording: MatchPredictionPrompt.Wording

    constructor(w: MatchPredictionPrompt.Wording)
      ensures cache == map[] && wording == w
    {
      cache := map[];
      wording := w;
    }

    /** `generatePrediction`. `now` is the clock at the cache read, `savedAt` the clock when
        the answer is stored; `model` answers a prompt. `prompt` is the prompt sent to the
        model, or `None` when no call is made. */
    method GeneratePrediction(
      input: MatchPredictionInput, now: int, savedAt: int, apiKey: Option<string>,
      model: string -> Result<seq<ContentBlock>, string>,
      parse: string -> Result<JsonValue, string>)
      returns (r: Result<JsonValue, string>, prompt: Option<string>)
      modifies this
      ensures Live(old(cache), CacheKey(input), now) ==>
        r == Ok(old(cache)[CacheKey(input)].data) && prompt.None? && cache == old(cache)
      ensures !Live(old(cache), CacheKey(input), now) && !TruthyString(apiKey) ==>
        r == Err(ApiKeyMissing) && prompt.None? && cache == old(cache)
      ensures !Live(old(cache), CacheKey(input), now) && TruthyString(apiKey) ==>
        && prompt == Some(MatchPredictionPrompt.Layout(wording, input))
        && r == PredictionFromReply(model(prompt.value), parse)
        && cache == if r.Ok? then old(cache)[CacheKey(input) := CacheEntry(r.value, savedAt + CacheTtl)] else old(cache)
    {
      var key := CacheKey(input);
      if key in cache && cache[key].expires > now {
        return Ok(cache[key].data), None;
      }
      if !TruthyString(apiKey) {
        return Err(ApiKeyMissing), None;
      }
      var sent := MatchPredictionPrompt.Layout(wording, input);
      prompt := Some(sent);
      r := PredictionFromReply(model(sent), parse);
      if r.Ok? {
        cache := cache[key := CacheEntry(r.value, savedAt + CacheTtl)];
      }
    }

    /** `clearExpiredCache`: deletes, one key at a time, every entry whose expiry is at or
        before `now`. */
    method ClearExpiredCache(now: int)
      modifies this
      ensures cache == Swept(old(cache), now)
    {
      ghost var start := cache;
      var keys := cache.Keys;
      while keys != {}
        invariant keys <= start.Keys
        invariant cache == map k | k in start && (k in keys || start[k].expires > now) :: start[k]
        decreases keys
      {
        var k :| k in keys;
        if cache[k].expires <= now {
          cache := cache - {k};
        }
        keys := keys - {k};
      }
      assert cache.Keys == Swept(start, now).Keys;
    }
  }
}
