/**
 * Stage 1 of the pipeline (BACKEND/src/lib/module1.js): find the parcel's
 * input record, normalise the vision model's verdict, decide Loss/NoLoss,
 * derive lost area, carbon and the mangrove score, and create or update the
 * parcel's Output document without touching the stage-2 vulnerability score.
 */
module Mangrove {
  import opened Js
  import opened Records

  // ---------------------------------------------------------------------------
  // Looking up the input record
  // ---------------------------------------------------------------------------

  /** The index of the first element satisfying `p`, as `findOne` returns the first match in store order. */
  function FindFirst<T>(s: seq<T>, p: T -> bool): (r: Option<nat>)
    ensures r.Some? ==> r.value < |s| && p(s[r.value])
    ensures r.Some? ==> forall j :: 0 <= j < r.value ==> !p(s[j])
    ensures r.None? ==> forall j :: 0 <= j < |s| ==> !p(s[j])
  {
    if |s| == 0 then None
    else if p(s[0]) then Some(0)
    else
      var rest := FindFirst(s[1..], p);
      if rest.Some? then Some(rest.value + 1) else None
  }

  /** `Input.findOne({ parcelName })`. */
  function FindByParcelName(inputs: seq<Input>, parcelName: string): Option<nat>
  {
    FindFirst(inputs, (x: Input) => x.parcelName == parcelName)
  }

  /** `Input.findOne({ name: parcelName })`, the legacy field. */
  function FindByLegacyName(inputs: seq<Input>, parcelName: string): Option<nat>
  {
    FindFirst(inputs, (x: Input) => x.legacyName == Some(parcelName))
  }

  /**
   * `fetchInputDataByName`: the first record whose `parcelName` matches,
   * otherwise the first whose legacy `name` matches, otherwise nothing.
   */
  method FetchInputDataByName(db: Store, parcelName: string) returns (record: Option<Input>)
    ensures record == InputByName(db.inputs, parcelName)
    ensures record.Some? ==> record.value in db.inputs
    ensures record.Some? ==> record.value.parcelName == parcelName || record.value.legacyName == Some(parcelName)
    ensures (exists i :: 0 <= i < |db.inputs| && db.inputs[i].parcelName == parcelName) ==>
              record.Some? && record.value.parcelName == parcelName
    ensures record.None? <==>
              forall i :: 0 <= i < |db.inputs| ==>
                db.inputs[i].parcelName != parcelName && db.inputs[i].legacyName != Some(parcelName)
  {
    var found := FindByParcelName(db.inputs, parcelName);
    if found.None? {
      found := FindByLegacyName(db.inputs, parcelName);
    }
    if found.Some? {
      record := Some(db.inputs[found.value]);
    } else {
      record := None;
    }
  }

  /** The same lookup as a function, for the specifications of the callers. */
  function InputByName(inputs: seq<Input>, parcelName: string): Option<Input>
  {
    var byName := FindByParcelName(inputs, parcelName);
    if byName.Some? then Some(inputs[byName.value])
    else
      var byLegacy := FindByLegacyName(inputs, parcelName);
      if byLegacy.Some? then Some(inputs[byLegacy.value]) else None
  }

  /** `getAreaValue`: `areaTotal || areaHa || 0`, so a stored 0 also falls through. */
  function GetAreaValue(record: Input): (area: real)
    ensures Truthy(record.areaTotal) ==> area == record.areaTotal.value
    ensures !Truthy(record.areaTotal) && Truthy(record.areaHa) ==> area == record.areaHa.value
    ensures !Truthy(record.areaTotal) && !Truthy(record.areaHa) ==> area == 0.0
  {
    if Truthy(record.areaTotal) then record.areaTotal.value
    else if Truthy(record.areaHa) then record.areaHa.value
    else 0.0
  }

  // ---------------------------------------------------------------------------
  // Normalising the vision model's answer
  // ---------------------------------------------------------------------------

  /** The properties of the parsed JSON object; any of them may be missing, and the score may not be a number. */
  datatype RawVision = RawVision(loss: Option<string>, confidence: Option<string>, summary: Option<string>, aiMangScore: JsValue)

  /**
   * What the vision call produced: it threw (no API key, unreadable image,
   * network error) with a message, or it answered with text that holds no
   * parsable JSON object, or with a parsed object.
   */
  datatype VisionReply = VisionFailed(message: string) | Unparsable(text: string) | Parsed(raw: RawVision)

  /** The normalised analysis; `rawResponse` is None on the error path. */
  datatype VisionResult = VisionResult(verdict: LossState, analysis: string, aiMangScore: JsNumber, rawResponse: Option<RawVision>)

  /** ASCII case folding, the part of `toLowerCase` that matters for the word "yes". */
  function LowerChar(c: char): char
  {
    if 'A' <= c <= 'Z' then (c as int + 32) as char else c
  }

  function ToLower(s: string): (t: string)
    ensures |t| == |s|
    ensures forall i :: 0 <= i < |s| ==> t[i] == LowerChar(s[i])
  {
    seq(|s|, i requires 0 <= i < |s| => LowerChar(s[i]))
  }

  /** `pattern` occurs in `s` at position `i`. */
  predicate OccursAt(s: string, pattern: string, i: int)
  {
    0 <= i && i + |pattern| <= |s| && s[i..i + |pattern|] == pattern
  }

  /** `s.includes(pattern)`. */
  predicate Includes(s: string, pattern: string)
  {
    exists i | 0 <= i <= |s| :: OccursAt(s, pattern, i)
  }

  /** `s.substring(0, n)`. */
  function Prefix(s: string, n: nat): (p: string)
    ensures |p| <= n && p <= s
  {
    if |s| <= n then s else s[..n]
  }

  /** The object built when the answer holds no JSON: a guess at the verdict, Medium confidence, score 0.5. */
  function Salvage(text: string): (raw: RawVision)
    ensures raw.loss == Some("yes") <==> Includes(ToLower(text), "yes")
    ensures raw.confidence == Some("Medium") && raw.aiMangScore == TruthyValue(Num(0.5))
  {
    RawVision(if Includes(ToLower(text), "yes") then Some("yes") else Some("no"),
              Some("Medium"), Some(Prefix(text, 100)), TruthyValue(Num(0.5)))
  }

  /** A missing property prints as "undefined" inside a template literal. */
  function Show(s: Option<string>): string
  {
    if s.Some? then s.value else "undefined"
  }

  /**
   * `Math.max(0, Math.min(1, x || 0.5))`: a falsy score becomes 0.5, a number
   * is cut into [0, 1], and NaN (a truthy text that is not a number) passes
   * through both `Math.min` and `Math.max`.
   */
  function UnitScore(x: JsValue): (r: JsNumber)
    ensures r.Num? ==> 0.0 <= r.value <= 1.0
    ensures r.NaN? <==> x == TruthyValue(NaN)
    ensures x.FalsyValue? ==> r == Num(0.5)
    ensures x.TruthyValue? && x.asNumber.Num? && 0.0 <= x.asNumber.value <= 1.0 ==> r == x.asNumber
    ensures x.TruthyValue? && x.asNumber.Num? && x.asNumber.value < 0.0 ==> r == Num(0.0)
    ensures x.TruthyValue? && x.asNumber.Num? && x.asNumber.value > 1.0 ==> r == Num(1.0)
  {
    var v := if x.TruthyValue? then x.asNumber else Num(0.5);
    if v.NaN? then NaN
    else if v.value < 0.0 then Num(0.0)
    else if v.value > 1.0 then Num(1.0)
    else v
  }

  function Normalize(raw: RawVision): VisionResult
  {
    VisionResult(if raw.loss == Some("yes") then Loss else NoLoss,
                 "Confidence: " + Show(raw.confidence) + ". " + Show(raw.summary),
                 UnitScore(raw.aiMangScore),
                 Some(raw))
  }

  /** The result of `performLLMAnalysis` from lines 142-186 on, given what the call produced. */
  function NormalizeVision(reply: VisionReply): (v: VisionResult)
    ensures v.aiMangScore.Num? ==> 0.0 <= v.aiMangScore.value <= 1.0
    ensures v.aiMangScore.NaN? <==> reply.Parsed? && reply.raw.aiMangScore == TruthyValue(NaN)
    ensures reply.Parsed? ==> (v.verdict == Loss <==> reply.raw.loss == Some("yes"))
    ensures reply.Unparsable? ==> (v.verdict == Loss <==> Includes(ToLower(reply.text), "yes"))
    ensures reply.Unparsable? ==> v.aiMangScore == Num(0.5)
    ensures reply.VisionFailed? ==>
              v == VisionResult(NoLoss, "Error in LLM analysis: " + reply.message, Num(0.5), None)
  {
    match reply
    case VisionFailed(message) => VisionResult(NoLoss, "Error in LLM analysis: " + message, Num(0.5), None)
    case Unparsable(text) => Normalize(Salvage(text))
    case Parsed(raw) => Normalize(raw)
  }

  // ---------------------------------------------------------------------------
  // Decision and arithmetic
  // ---------------------------------------------------------------------------

  /** The vision verdict wins; otherwise a greenness drop of at least 25% is a loss. */
  const LossDropPct: int := 25

  /** Tonnes of CO2e per hectare of lost mangrove. */
  const CarbonPerHa: real := 10.0

  /** The stage-1 fields written to the Output document. */
  datatype Module1Fields = Module1Fields(
    mangScore: int,
    lostArea: real,
    llmAnalysis: string,
    state: LossState,
    extraCarbon: real,
    dropPct: int,
    needsReview: bool)

  function DecideState(verdict: LossState, dropPct: int): (s: LossState)
  {
    if verdict == Loss then Loss
    else if dropPct >= LossDropPct then Loss
    else NoLoss
  }

  /** The unrounded lost area: the dropped share of the area when the state is Loss, nothing otherwise. */
  function LostArea(state: LossState, dropPct: int, area: real): real
  {
    (if state == Loss then dropPct as real else 0.0) / 100.0 * area
  }

  /** `aiMangScore * 100 || Math.max(0, 100 - dropPct)`: NaN and 0 fall back to the drop. */
  function MangScore(aiMangScore: JsNumber, dropPct: int): real
  {
    OrNumber(Times(aiMangScore, 100.0), if 100 - dropPct > 0 then (100 - dropPct) as real else 0.0)
  }

  /** `rawResponse?.confidence === 'Low'`. */
  function NeedsReview(v: VisionResult): bool
  {
    v.rawResponse.Some? && v.rawResponse.value.confidence == Some("Low")
  }

  /** The module-1 fields of `processMangroveTracking` (lines 211-258) for the record's area, the drop and the vision reply. */
  function Module1FieldsOf(area: real, dropPct: int, reply: VisionReply): (f: Module1Fields)
    ensures f.state == Loss <==> NormalizeVision(reply).verdict == Loss || dropPct >= LossDropPct
    ensures f.needsReview <==> reply.Parsed? && reply.raw.confidence == Some("Low")
    ensures dropPct >= 0 ==> 0 <= f.mangScore <= 100
    ensures var ai := NormalizeVision(reply).aiMangScore;
            ai.Num? && ai.value > 0.0 ==> f.mangScore == Round(100.0 * ai.value)
    ensures var ai := NormalizeVision(reply).aiMangScore;
            ai.NaN? || ai == Num(0.0) ==> f.mangScore == (if dropPct < 100 then 100 - dropPct else 0)
    ensures f.lostArea == Round2(LostArea(f.state, dropPct, area))
    ensures f.extraCarbon == Round2(LostArea(f.state, dropPct, area) * CarbonPerHa)
    ensures f.llmAnalysis == NormalizeVision(reply).analysis && f.dropPct == dropPct
  {
    var v := NormalizeVision(reply);
    var state := DecideState(v.verdict, dropPct);
    var lost := LostArea(state, dropPct, area);
    Module1Fields(Round(MangScore(v.aiMangScore, dropPct)), Round2(lost), v.analysis, state,
                  Round2(lost * CarbonPerHa), dropPct, NeedsReview(v))
  }

  /** The lost area never exceeds the parcel's area, for a drop within [0, 100]. */
  lemma LostAreaBounds(state: LossState, dropPct: int, area: real)
    requires 0 <= dropPct <= 100 && area >= 0.0
    ensures 0.0 <= LostArea(state, dropPct, area) <= area
    ensures state == NoLoss ==> LostArea(state, dropPct, area) == 0.0
  {
    var share := (if state == Loss then dropPct as real else 0.0) / 100.0;
    assert 0.0 <= share <= 1.0;
    assert LostArea(state, dropPct, area) == share * area;
    ShareOfArea(share, area);
  }

  /** A share in [0, 1] of a non-negative area lies between 0 and that area. */
  lemma ShareOfArea(share: real, area: real)
    requires 0.0 <= share <= 1.0 && area >= 0.0
    ensures 0.0 <= share * area <= area
  {
    assert area - share * area == (1.0 - share) * area;
  }

  /** A failed vision call never asks for review and leaves the decision to the drop alone. */
  lemma {:induction false} FailedVisionDefersToDrop(area: real, dropPct: int, message: string)
    ensures var f := Module1FieldsOf(area, dropPct, VisionFailed(message));
            && !f.needsReview
            && (f.state == Loss <==> dropPct >= LossDropPct)
            && f.mangScore == 50
  {
    var v := NormalizeVision(VisionFailed(message));
    assert Times(v.aiMangScore, 100.0) == Num(50.0);
  }

  /**
   * A truthy vision score that is not a positive number (a text such as
   * "N/A", the text "0", a negative number) ends as NaN or 0 and falls back to
   * `100 - dropPct`.
   */
  lemma {:induction false} MangScoreFallback(area: real, dropPct: int, raw: RawVision)
    requires 0 <= dropPct <= 100
    requires raw.aiMangScore.TruthyValue?
    requires raw.aiMangScore.asNumber.NaN? || raw.aiMangScore.asNumber.value <= 0.0
    ensures Module1FieldsOf(area, dropPct, Parsed(raw)).mangScore == 100 - dropPct
  {
    var v := NormalizeVision(Parsed(raw));
    assert v.aiMangScore.NaN? || v.aiMangScore == Num(0.0);
  }

  /** A falsy vision score (missing, null, 0) becomes 0.5, so the mangrove score is 50 whatever the drop. */
  lemma {:induction false} MissingScoreIsFifty(area: real, dropPct: int, raw: RawVision)
    requires raw.aiMangScore.FalsyValue?
    ensures Module1FieldsOf(area, dropPct, Parsed(raw)).mangScore == 50
  {
    var v := NormalizeVision(Parsed(raw));
    assert v.aiMangScore == Num(0.5);
  }

  /** A 30% drop is a loss even when the vision model says no: on 100 ha that is 30 ha and 300 t CO2e. */
  lemma {:induction false} DropOverridesVerdict(confidence: Option<string>, summary: Option<string>)
    ensures var f := Module1FieldsOf(100.0, 30, Parsed(RawVision(Some("no"), confidence, summary, TruthyValue(Num(0.8)))));
            && f.state == Loss && f.lostArea == 30.0 && f.extraCarbon == 300.0 && f.mangScore == 80
  {
    assert LostArea(Loss, 30, 100.0) == 30.0;
    assert Round(3000.0) == 3000 && Round(30000.0) == 30000 && Round(80.0) == 80;
  }

  // ---------------------------------------------------------------------------
  // Writing the Output document
  // ---------------------------------------------------------------------------

  /** The vulnerability score a fresh stage-1 document, or one without a score, receives. */
  const DefaultVulnScore: int := 50

  /** The Output document after stage 1: updated in place if it exists, created otherwise. */
  function UpsertStage1(existing: Option<Output>, f: Module1Fields): (o: Output)
    ensures o.mangScore == Some(f.mangScore) && o.lostArea == f.lostArea && o.llmAnalysis == f.llmAnalysis
    ensures o.state == f.state && o.extraCarbon == f.extraCarbon && o.dropPct == f.dropPct && o.needsReview == f.needsReview
    ensures existing.Some? && existing.value.vulnScore.Some? ==> o.vulnScore == existing.value.vulnScore
    ensures existing.None? || existing.value.vulnScore.None? ==> o.vulnScore == Some(DefaultVulnScore)
    ensures existing.Some? ==> o.riskScore == existing.value.riskScore && o.riskBand == existing.value.riskBand
    ensures existing.None? ==> o.riskScore.None? && o.riskBand.None?
  {
    match existing
    case None =>
      Output(Some(f.mangScore), f.lostArea, f.llmAnalysis, f.state, f.extraCarbon, f.dropPct, f.needsReview,
             Some(DefaultVulnScore), None, None)
    case Some(prev) =>
      prev.(mangScore := Some(f.mangScore), lostArea := f.lostArea, llmAnalysis := f.llmAnalysis, state := f.state,
           extraCarbon := f.extraCarbon, dropPct := f.dropPct, needsReview := f.needsReview,
           vulnScore := if prev.vulnScore.None? then Some(DefaultVulnScore) else prev.vulnScore)
  }

  /** Re-running stage 1 with the same fields changes nothing. */
  lemma UpsertIdempotent(existing: Option<Output>, f: Module1Fields)
    ensures UpsertStage1(Some(UpsertStage1(existing, f)), f) == UpsertStage1(existing, f)
  {
  }

  /** A vulnerability score written by stage 2 survives any later stage-1 run. */
  lemma UpsertKeepsStage2Score(existing: Option<Output>, f: Module1Fields, g: Module1Fields, vulnScore: int)
    ensures UpsertStage1(Some(UpsertStage1(existing, f).(vulnScore := Some(vulnScore))), g).vulnScore == Some(vulnScore)
  {
  }

  function Lookup(outputs: map<string, Output>, parcelId: string): Option<Output>
  {
    if parcelId in outputs then Some(outputs[parcelId]) else None
  }

  /** The prefix every error of stage 1 carries. */
  const Module1Failed: string := "Module 1 processing failed: "

  /** What stage 1 returns and the Output documents after it, as a function of the store. */
  function MangroveTracking(inputs: seq<Input>, outputs: map<string, Output>, parcelName: string,
                                       connectionFault: Option<string>, dropPct: int, vision: VisionReply): (Result<Output>, map<string, Output>)
  {
    if connectionFault.Some? then (Err(Module1Failed + "MongoDB connection failed: " + connectionFault.value), outputs)
    else if InputByName(inputs, parcelName).None? then (Err(Module1Failed + "No input data found for parcel: " + parcelName), outputs)
    else
      var record := InputByName(inputs, parcelName).value;
      var o := UpsertStage1(Lookup(outputs, record.id), Module1FieldsOf(GetAreaValue(record), dropPct, vision));
      (Ok(o), outputs[record.id := o])
  }


  /**
   * `processMangroveTracking`. The connection fault, the greenness drop and
   * the vision reply are what the database driver, the image heuristic and
   * the vision model produce; every error is re-thrown with the stage-1 prefix.
   */
  method ProcessMangroveTracking(db: Store, parcelName: string, connectionFault: Option<string>,
                                 dropPct: int, vision: VisionReply) returns (r: Result<Output>)
    modifies db
    ensures db.inputs == old(db.inputs) && db.events == old(db.events)
    ensures db.subscriptions == old(db.subscriptions) && db.users == old(db.users)
    ensures connectionFault.Some? ==>
              r == Err(Module1Failed + "MongoDB connection failed: " + connectionFault.value)
              && db.outputs == old(db.outputs)
    ensures connectionFault.None? && InputByName(old(db.inputs), parcelName).None? ==>
              r == Err(Module1Failed + "No input data found for parcel: " + parcelName)
              && db.outputs == old(db.outputs)
    ensures connectionFault.None? && InputByName(old(db.inputs), parcelName).Some? ==>
              var record := InputByName(old(db.inputs), parcelName).value;
              var o := UpsertStage1(Lookup(old(db.outputs), record.id), Module1FieldsOf(GetAreaValue(record), dropPct, vision));
              r == Ok(o) && db.outputs == old(db.outputs)[record.id := o]
    ensures (r, db.outputs) == MangroveTracking(old(db.inputs), old(db.outputs), parcelName, connectionFault, dropPct, vision)
    ensures db.Valid() <==> old(db.Valid())
  {
    if connectionFault.Some? {
      return Err(Module1Failed + "MongoDB connection failed: " + connectionFault.value);
    }
    var record := FetchInputDataByName(db, parcelName);
    if record.None? {
      return Err(Module1Failed + "No input data found for parcel: " + parcelName);
    }
    var input := record.value;
    var fields := Module1FieldsOf(GetAreaValue(input), dropPct, vision);
    var existing := Lookup(db.outputs, input.id);
    var output := UpsertStage1(existing, fields);
    db.outputs := db.outputs[input.id := output];
    r := Ok(output);
  }
}
