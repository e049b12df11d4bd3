/** The request bodies the backend accepts: the class-validator constraints of each DTO,
    under the global pipe that rejects undeclared properties. A body is the JSON object
    after transformation; an optional property may be absent or `null`. */
module Dtos {
  import opened Json

  /** The length `@MinLength` and `@MaxLength` measure (validator.js `isLength`): the
      characters of the string, not counting the variation selectors U+FE0E and U+FE0F. A
      character outside the Basic Multilingual Plane counts once. */
  function ValidatorLength(s: string): (n: nat)
    ensures n <= |s|
    ensures n == |s| - |VariationSelectors(s)|
  {
    if s == [] then 0 else (if IsVariationSelector(s[0]) then 0 else 1) + ValidatorLength(s[1..])
  }

  predicate IsVariationSelector(c: char) {
    c == '\U{FE0E}' || c == '\U{FE0F}'
  }

  /** The variation selectors of a string, in order. */
  function VariationSelectors(s: string): (r: string)
    ensures |r| <= |s|
    ensures forall i :: 0 <= i < |r| ==> IsVariationSelector(r[i])
  {
    if s == [] then [] else (if IsVariationSelector(s[0]) then [s[0]] else []) + VariationSelectors(s[1..])
  }

  /** Without variation selectors the measured length is the number of characters. */
  lemma {:induction false} PlainLength(s: string)
    requires forall i :: 0 <= i < |s| ==> !IsVariationSelector(s[i])
    ensures ValidatorLength(s) == |s|
  {
    if s != [] {
      PlainLength(s[1..]);
    }
  }

  /** `@IsOptional()`: every other constraint is skipped for an absent or null value. */
  predicate Absent(body: map<string, JsonValue>, key: string) {
    key !in body || body[key] == JNull
  }

  /** `forbidNonWhitelisted`: no property outside the declared ones. */
  predicate OnlyKeys(body: map<string, JsonValue>, declared: set<string>) {
    forall k :: k in body ==> k in declared
  }

  /** `@IsInt()`. */
  predicate IsInteger(v: JsonValue) {
    v.JNumber? && v.n.Floor as real == v.n
  }

  /** `@IsString()` with `@MinLength(min)` and `@MaxLength(max)`. */
  predicate StringWithin(v: JsonValue, min: nat, max: nat) {
    v.JString? && min <= ValidatorLength(v.s) <= max
  }

  // ---------------------------------------------------------------------------
  // CreatePredictionDto
  // ---------------------------------------------------------------------------

  const CreatePredictionFields := {"matchId", "projectId", "predictedHomeScore", "predictedAwayScore",
                                   "predictedWinner", "confidenceScore"}

  /** An optional integer score of at least 0. */
  predicate ValidScore(body: map<string, JsonValue>, key: string) {
    Absent(body, key) || (IsInteger(body[key]) && body[key].n >= 0.0)
  }

  /** `CreatePredictionDto`; `isUuid` is the UUID grammar of `@IsUUID()`. */
  predicate ValidCreatePrediction(body: map<string, JsonValue>, isUuid: string -> bool) {
    && OnlyKeys(body, CreatePredictionFields)
    && "matchId" in body && IsInteger(body["matchId"])
    && (Absent(body, "projectId") || (body["projectId"].JString? && isUuid(body["projectId"].s)))
    && ValidScore(body, "predictedHomeScore")
    && ValidScore(body, "predictedAwayScore")
    && (Absent(body, "confidenceScore")
        || (body["confidenceScore"].JNumber? && 0.0 <= body["confidenceScore"].n <= 100.0))
  }

  /** The smallest body: an integer match id alone. */
  lemma MatchIdAloneIsValid(id: int, isUuid: string -> bool)
    ensures ValidCreatePrediction(map["matchId" := JNumber(id as real)], isUuid)
  {
  }

  /** A body without an integer match id is rejected. */
  lemma MatchIdRequired(body: map<string, JsonValue>, isUuid: string -> bool)
    requires "matchId" !in body || !IsInteger(body["matchId"])
    ensures !ValidCreatePrediction(body, isUuid)
  {
  }

  /** A confidence score need not be an integer. */
  lemma FractionalConfidenceAccepted(id: int, isUuid: string -> bool)
    ensures ValidCreatePrediction(map["matchId" := JNumber(id as real), "confidenceScore" := JNumber(85.5)], isUuid)
  {
  }

  /** A negative score, or one with a fractional part, is rejected. */
  lemma BadScoresRejected(body: map<string, JsonValue>, isUuid: string -> bool, score: real)
    requires score < 0.0 || score.Floor as real != score
    ensures !ValidCreatePrediction(body["predictedHomeScore" := JNumber(score)], isUuid)
    ensures !ValidCreatePrediction(body["predictedAwayScore" := JNumber(score)], isUuid)
  {
  }

  /** The predicted winner has no constraint: whatever it holds, validity is decided by the
      other properties. */
  lemma {:induction false} WinnerUnchecked(body: map<string, JsonValue>, isUuid: string -> bool, v1: JsonValue, v2: JsonValue)
    ensures ValidCreatePrediction(body["predictedWinner" := v1], isUuid)
        == ValidCreatePrediction(body["predictedWinner" := v2], isUuid)
  {
    var b1 := body["predictedWinner" := v1];
    var b2 := body["predictedWinner" := v2];
    assert forall k :: k != "predictedWinner" ==> (k in b1 <==> k in b2);
    assert forall k :: k != "predictedWinner" && k in b1 ==> b1[k] == b2[k];
    assert OnlyKeys(b1, CreatePredictionFields) == OnlyKeys(b2, CreatePredictionFields);
  }

  /** An undeclared property makes any body invalid. */
  lemma UndeclaredPropertyRejected(body: map<string, JsonValue>, isUuid: string -> bool, k: string)
    requires k in body && k !in CreatePredictionFields
    ensures !ValidCreatePrediction(body, isUuid)
  {
  }

  // ---------------------------------------------------------------------------
  // ChatDto
  // ---------------------------------------------------------------------------

  const NotAStringMessage := "message must be a string"
  const MinLengthMessage := "Le message doit contenir au moins 3 caractères"
  const MaxLengthMessage := "Le message ne peut pas dépasser 1000 caractères"

  /** The whitelist error for an undeclared property. */
  function ForbiddenPropertyMessage(k: string): string {
    "property " + k + " should not exist"
  }

  /** The messages of the constraints a `ChatDto` body violates. */
  function ChatDtoErrors(body: map<string, JsonValue>): (errors: set<string>)
    ensures errors == {} <==> OnlyKeys(body, {"message"}) && "message" in body && StringWithin(body["message"], 3, 1000)
    ensures "message" in body && body["message"].JString? ==>
      && NotAStringMessage !in errors
      && (MinLengthMessage in errors <== ValidatorLength(body["message"].s) < 3)
      && (MaxLengthMessage in errors <== ValidatorLength(body["message"].s) > 1000)
    ensures "message" !in body || !body["message"].JString? ==>
      NotAStringMessage in errors && MinLengthMessage in errors && MaxLengthMessage in errors
    ensures forall k :: k in body && k != "message" ==> ForbiddenPropertyMessage(k) in errors
  {
    var isString := "message" in body && body["message"].JString?;
    var length := if isString then ValidatorLength(body["message"].s) else 0;
    var forbidden := set k | k in body && k != "message" :: ForbiddenPropertyMessage(k);
    assert forall k :: k in body && k != "message" ==> ForbiddenPropertyMessage(k) in forbidden;
    (if isString then {} else {NotAStringMessage})
    + (if isString && length >= 3 then {} else {MinLengthMessage})
    + (if isString && length <= 1000 then {} else {MaxLengthMessage})
    + forbidden
  }

  // ---------------------------------------------------------------------------
  // Projects and users
  // ---------------------------------------------------------------------------

  /** `CreateProjectDto`. */
  predicate ValidCreateProject(body: map<string, JsonValue>) {
    && OnlyKeys(body, {"name", "description"})
    && "name" in body && StringWithin(body["name"], 3, 100)
    && (Absent(body, "description") || StringWithin(body["description"], 0, 500))
  }

  /** `UpdateProjectDto`: every property optional; `isActive` takes any value. */
  predicate ValidUpdateProject(body: map<string, JsonValue>) {
    && OnlyKeys(body, {"name", "description", "isActive"})
    && (Absent(body, "name") || StringWithin(body["name"], 3, 100))
    && (Absent(body, "description") || StringWithin(body["description"], 0, 500))
  }

  /** `UpdateUserDto`: the avatar URL is any string, its format unchecked. */
  predicate ValidUpdateUser(body: map<string, JsonValue>) {
    && OnlyKeys(body, {"fullName", "avatarUrl"})
    && (Absent(body, "fullName") || StringWithin(body["fullName"], 2, 100))
    && (Absent(body, "avatarUrl") || body["avatarUrl"].JString?)
  }

  /** Every valid creation body is a valid update body, and an empty update is valid. */
  lemma CreateProjectIsUpdate(body: map<string, JsonValue>)
    ensures ValidCreateProject(body) ==> ValidUpdateProject(body)
    ensures ValidUpdateProject(map[]) && ValidUpdateUser(map[])
  {
  }

  /** A project name is a string of 3 to 100 measured characters, and a description at most 500. */
  lemma ProjectNameBounds(body: map<string, JsonValue>)
    requires ValidCreateProject(body) || (ValidUpdateProject(body) && !Absent(body, "name"))
    ensures body["name"].JString? && 3 <= ValidatorLength(body["name"].s) <= 100
    ensures !Absent(body, "description") ==> body["description"].JString? && ValidatorLength(body["description"].s) <= 500
  {
  }

  /** A two-character name is too short for a project but long enough for a user. */
  lemma TwoCharacterNames()
    ensures !ValidCreateProject(map["name" := JString("ab")])
    ensures ValidUpdateUser(map["fullName" := JString("ab")])
  {
    assert ValidatorLength("ab") == 2 by {
      assert "ab"[1..] == "b";
      assert "b"[1..] == "";
    }
  }

  /** A character outside the Basic Multilingual Plane counts once, so one emoji is too short
      for a user name and two are too short for a chat message. */
  lemma AstralCharacterCountsOnce()
    ensures ValidatorLength("\U{1F600}") == 1
    ensures !ValidUpdateUser(map["fullName" := JString("\U{1F600}")])
    ensures MinLengthMessage in ChatDtoErrors(map["message" := JString("\U{1F600}\U{1F600}")])
  {
    assert "\U{1F600}"[1..] == "";
    assert ValidatorLength("\U{1F600}\U{1F600}") == 2 by {
      assert "\U{1F600}\U{1F600}"[1..] == "\U{1F600}";
    }
  }

  /** A variation selector after a character adds nothing to the measured length. */
  lemma VariationSelectorNotCounted(s: string, c: char)
    requires IsVariationSelector(c)
    ensures ValidatorLength([c] + s) == ValidatorLength(s)
  {
    assert ([c] + s)[1..] == s;
  }

  /** A name of 60 emoji is a valid project name. */
  lemma {:induction false} SixtyEmojiProjectName(name: string)
    requires |name| == 60 && forall i :: 0 <= i < |name| ==> name[i] == '\U{1F600}'
    ensures ValidCreateProject(map["name" := JString(name)])
  {
    PlainLength(name);
  }
}
