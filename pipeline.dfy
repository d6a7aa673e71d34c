/**
 * The pipeline orchestrator (BACKEND/src/lib/pipeline.js): resolve the input
 * record, run stage 1 (mangrove tracking) and stop if it fails, run stage 2
 * (vulnerability) tolerating its failure, report stage 3 (carbon, computed by
 * stage 1), run stage 4 (risk assessment, one new RiskEvent), and call the
 * run a success when at least two stages succeeded.
 */
module Pipeline {
  import opened Js
  import opened Scoring
  import opened Records
  import opened Mangrove

  // ---------------------------------------------------------------------------
  // Results
  // ---------------------------------------------------------------------------

  /** The caller's options; each may be absent. */
  datatype PipelineOptions = PipelineOptions(timeWindowHrs: Option<int>, audience: Option<seq<string>>)

  /** A stage's entry in the result: its data, or the error it was recorded with. */
  datatype StageOutcome<+T> = Succeeded(data: T) | Failed(error: string)

  datatype VulnData = VulnData(parcelId: string, vulnScore: int)

  /** The result object; a stage that never ran is None (`null`). */
  datatype PipelineResult = PipelineResult(
    identifier: string,
    module1: Option<StageOutcome<Output>>,
    module2: Option<StageOutcome<VulnData>>,
    module3: Option<StageOutcome<real>>,
    module4: Option<StageOutcome<RiskEvent>>,
    errors: seq<string>,
    success: bool)

  function Count<T>(m: Option<StageOutcome<T>>): nat
  {
    if m.Some? && m.value.Succeeded? then 1 else 0
  }

  /** The number of stages whose entry records a success. */
  function SuccessfulModules(r: PipelineResult): (n: nat)
    ensures n <= 4
  {
    Count(r.module1) + Count(r.module2) + Count(r.module3) + Count(r.module4)
  }

  /** A run succeeds when at least two of the four stages did. */
  const MinSuccessfulModules: nat := 2

  // ---------------------------------------------------------------------------
  // Resolving the identifier
  // ---------------------------------------------------------------------------

  predicate IsHexDigit(c: char)
  {
    '0' <= c <= '9' || 'a' <= c <= 'f' || 'A' <= c <= 'F'
  }

  /** `ObjectId.isValid` for the 24-hex-digit form. */
  predicate IsObjectIdString(s: string)
  {
    |s| == 24 && forall i :: 0 <= i < |s| ==> IsHexDigit(s[i])
  }

  /**
   * `Input.findById(key)`: the identifier is cast to an ObjectId, whose hex
   * digits compare without regard to case, so both sides are lowered.
   */
  function FindById(inputs: seq<Input>, key: string): Option<nat>
  {
    FindFirst(inputs, (x: Input) => ToLower(x.id) == key)
  }

  /** `Input.findById(identifier)` for a valid id, `Input.findOne({ parcelName: identifier })` otherwise. */
  function ResolveInput(inputs: seq<Input>, identifier: string): (r: Option<Input>)
    ensures r.Some? ==> r.value in inputs
    ensures r.Some? && IsObjectIdString(identifier) ==> ToLower(r.value.id) == ToLower(identifier)
    ensures r.Some? && !IsObjectIdString(identifier) ==> r.value.parcelName == identifier
    ensures r.None? && IsObjectIdString(identifier) ==>
              forall i :: 0 <= i < |inputs| ==> ToLower(inputs[i].id) != ToLower(identifier)
    ensures r.None? && !IsObjectIdString(identifier) ==> forall i :: 0 <= i < |inputs| ==> inputs[i].parcelName != identifier
  {
    var found := if IsObjectIdString(identifier)
                 then FindById(inputs, ToLower(identifier))
                 else FindByParcelName(inputs, identifier);
    if found.Some? then Some(inputs[found.value]) else None
  }

  /** Lowering a string twice is lowering it once. */
  lemma ToLowerIdempotent(s: string)
    ensures ToLower(ToLower(s)) == ToLower(s)
  {
    assert forall i :: 0 <= i < |s| ==> LowerChar(LowerChar(s[i])) == LowerChar(s[i]);
  }

  /** An id in upper-case hex finds the same record as the same id in lower case. */
  lemma {:induction false} IdCaseIsIgnored(inputs: seq<Input>, identifier: string)
    requires IsObjectIdString(identifier)
    ensures IsObjectIdString(ToLower(identifier))
    ensures ResolveInput(inputs, identifier) == ResolveInput(inputs, ToLower(identifier))
  {
    var lower := ToLower(identifier);
    assert forall i :: 0 <= i < |lower| ==> IsHexDigit(lower[i]) by {
      forall i | 0 <= i < |lower| ensures IsHexDigit(lower[i]) {
        assert IsHexDigit(identifier[i]);
      }
    }
    ToLowerIdempotent(identifier);
  }

  /**
   * When parcel names are unique, stage 1 (which looks its record up by the
   * resolved record's name) works on the very record the pipeline resolved.
   */
  lemma {:induction false} StageOneSeesResolvedRecord(inputs: seq<Input>, identifier: string)
    requires forall i, j :: 0 <= i < j < |inputs| ==> inputs[i].parcelName != inputs[j].parcelName
    requires ResolveInput(inputs, identifier).Some?
    ensures InputByName(inputs, ResolveInput(inputs, identifier).value.parcelName) == ResolveInput(inputs, identifier)
  {
    var input := ResolveInput(inputs, identifier).value;
    var k :| 0 <= k < |inputs| && inputs[k] == input;
    var byName := FindByParcelName(inputs, input.parcelName);
    assert byName.Some?;
  }

  // ---------------------------------------------------------------------------
  // Stage 2: vulnerability
  // ---------------------------------------------------------------------------

  /** `Math.round(0.3 elev + 0.3 dist + 0.2 landCover + 0.2 mangScore)`. */
  function ComposeVulnScore(elev: real, dist: real, landCover: real, mangScore: int): (v: int)
    ensures 0.0 <= elev <= 100.0 && 0.0 <= dist <= 100.0 && 0.0 <= landCover <= 100.0 && 0 <= mangScore <= 100
            ==> 0 <= v <= 100
  {
    Round(0.3 * elev + 0.3 * dist + 0.2 * landCover + 0.2 * mangScore as real)
  }

  lemma VulnScoreExample()
    ensures ComposeVulnScore(80.0, 60.0, 40.0, 50) == 60
  {
    assert 0.3 * 80.0 + 0.3 * 60.0 + 0.2 * 40.0 + 0.2 * 50 as real == 60.0;
  }

  const Module2MissingScores: string := "Missing Module 2 scores: elevScore, distScore, landCoverScore"
  const Module1OutputMissing: string := "Module 1 output not found"

  /** What stage 2 reports and the Output documents after it. */
  datatype Stage2Step = Stage2Step(outcome: StageOutcome<VulnData>, outputs: map<string, Output>)

  /**
   * Stage 2: all three scores must be truthy (a 0 counts as missing) and the
   * parcel's Output must hold a mangrove score; then only `vulnScore` changes.
   */
  function Stage2(input: Input, outputs: map<string, Output>): (s: Stage2Step)
    ensures s.outcome.Failed? <==>
              !(Truthy(input.elevScore) && Truthy(input.distScore) && Truthy(input.landCoverScore))
              || input.id !in outputs || outputs[input.id].mangScore.None?
    ensures s.outcome.Failed? ==> s.outputs == outputs
    ensures s.outcome.Succeeded? ==>
              input.id in outputs && outputs[input.id].mangScore.Some?
              && s.outcome.data == VulnData(input.id, ComposeVulnScore(input.elevScore.value, input.distScore.value,
                                                                       input.landCoverScore.value, outputs[input.id].mangScore.value))
              && s.outputs == outputs[input.id := outputs[input.id].(vulnScore := Some(s.outcome.data.vulnScore))]
  {
    if !(Truthy(input.elevScore) && Truthy(input.distScore) && Truthy(input.landCoverScore)) then
      Stage2Step(Failed("Module 2 failed: " + Module2MissingScores), outputs)
    else if input.id !in outputs || outputs[input.id].mangScore.None? then
      Stage2Step(Failed("Module 2 failed: " + Module1OutputMissing), outputs)
    else
      var output := outputs[input.id];
      var v := ComposeVulnScore(input.elevScore.value, input.distScore.value, input.landCoverScore.value, output.mangScore.value);
      Stage2Step(Succeeded(VulnData(input.id, v)), outputs[input.id := output.(vulnScore := Some(v))])
  }

  // ---------------------------------------------------------------------------
  // Stage 4: risk assessment
  // ---------------------------------------------------------------------------

  /** `clamp((input.rain ?? input.Rain) * 100)`: the 0-1 rain value on the 0-100 scale. */
  function Rain01(input: Input): (r: real)
    ensures 0.0 <= r <= 100.0
    ensures Coalesce(input.rain, input.legacyRain).None? ==> r == 0.0
  {
    Clamp(Times(ToNumber(Coalesce(input.rain, input.legacyRain)), 100.0))
  }

  function Tide01(input: Input): (r: real)
    ensures 0.0 <= r <= 100.0
    ensures Coalesce(input.tide, input.legacyTide).None? ==> r == 0.0
  {
    Clamp(Times(ToNumber(Coalesce(input.tide, input.legacyTide)), 100.0))
  }

  function Exposure(input: Input): (r: real)
    ensures 0.0 <= r <= 100.0
  {
    Clamp(ToNumber(Coalesce(input.exposure, input.legacyExposure)))
  }

  const DefaultVulnerability: real := 50.0

  /** `clamp(output.vulnScore || 50)`: a missing or zero score becomes 50. */
  function Vulnerability(output: Output): (v: real)
    ensures 0.0 <= v <= 100.0
    ensures output.vulnScore.None? || output.vulnScore == Some(0) ==> v == DefaultVulnerability
    ensures output.vulnScore.Some? && 0 < output.vulnScore.value <= 100 ==> v == output.vulnScore.value as real
  {
    var stored := if output.vulnScore.Some? then Some(output.vulnScore.value as real) else None;
    Clamp(Num(OrNumber(ToNumber(stored), DefaultVulnerability)))
  }

  const DefaultTimeWindowHrs: int := 12

  /** `Number(options.timeWindowHrs) || 12`. */
  function TimeWindow(options: PipelineOptions): (h: int)
    ensures options.timeWindowHrs.Some? && options.timeWindowHrs.value != 0 ==> h == options.timeWindowHrs.value
    ensures options.timeWindowHrs.None? || options.timeWindowHrs == Some(0) ==> h == DefaultTimeWindowHrs
  {
    if options.timeWindowHrs.Some? && options.timeWindowHrs.value != 0 then options.timeWindowHrs.value
    else DefaultTimeWindowHrs
  }

  const DefaultAudience: seq<string> := ["people", "officials"]

  /** `options.audience || ['people', 'officials']`: any array, even an empty one, is kept. */
  function Audience(options: PipelineOptions): (a: seq<string>)
    ensures options.audience.Some? ==> a == options.audience.value
    ensures options.audience.None? ==> a == DefaultAudience
  {
    if options.audience.Some? then options.audience.value else DefaultAudience
  }

  /** `villageName ?? VillageName ?? parcelName`: an empty village name is kept, not skipped. */
  function Location(input: Input): (l: string)
    ensures input.villageName.Some? ==> l == input.villageName.value
    ensures input.villageName.None? && input.legacyVillageName.Some? ==> l == input.legacyVillageName.value
    ensures input.villageName.None? && input.legacyVillageName.None? ==> l == input.parcelName
  {
    Coalesce(input.villageName, Coalesce(input.legacyVillageName, Some(input.parcelName))).value
  }

  /** The source computation that stage 4 writes for the record and its Output at time `now`. */
  function RiskEventFor(input: Input, output: Output, options: PipelineOptions, llm: LlmReply, now: int): (e: RiskEvent)
    ensures var risk := ComputeRisk(Num(Rain01(input)), Num(Tide01(input)), Num(Vulnerability(output)), Num(Exposure(input)));
            && e.riskScore == risk.riskScore && e.band == risk.band && e.band == BandOf(e.riskScore)
            && 0 <= e.riskScore <= 100
            && e.why == MaybeEnhanceMessages(MessageContext(Location(input), risk.riskScore, risk.band, risk.why, TimeWindow(options)), llm).why
    ensures e.parcelId == input.id && e.location == Location(input) && e.sourceComputationId == Some(input.id)
    ensures e.timeWindowHrs == TimeWindow(options) && e.audience == Audience(options)
    ensures e.generatedAt == now && e.personal.None?
    ensures e.why != "" && e.smsShort != "" && e.dashboard != ""
    ensures !Accepted(llm) ==> e.smsShort == GenerateMessages(MessageContext(e.location, e.riskScore, e.band, e.why, e.timeWindowHrs)).smsShort
  {
    var risk := ComputeRisk(Num(Rain01(input)), Num(Tide01(input)), Num(Vulnerability(output)), Num(Exposure(input)));
    var ctx := MessageContext(Location(input), risk.riskScore, risk.band, risk.why, TimeWindow(options));
    var enhanced := MaybeEnhanceMessages(ctx, llm);
    RiskEvent(Some(input.id), input.id, ctx.location, risk.riskScore, risk.band, enhanced.why, ctx.timeWindowHrs,
              Audience(options), enhanced.smsShort, enhanced.dashboard, now, None)
  }

  const OutputMissing: string := "Output data not found for risk assessment"

  /** The message a failed schema validation on save is reported with. */
  const RiskEventInvalid: string := "RiskEvent validation failed"

  /** Stage 4: the Output must exist and the new event must pass the schema on save. */
  function Stage4(input: Input, outputs: map<string, Output>, options: PipelineOptions, llm: LlmReply, now: int): (s: StageOutcome<RiskEvent>)
    ensures input.id !in outputs ==> s == Failed("Module 4 failed: " + OutputMissing)
    ensures s.Succeeded? ==> input.id in outputs && s.data == RiskEventFor(input, outputs[input.id], options, llm, now)
                             && SchemaValid(s.data)
    ensures input.id in outputs && SchemaValid(RiskEventFor(input, outputs[input.id], options, llm, now)) ==> s.Succeeded?
  {
    if input.id !in outputs then Failed("Module 4 failed: " + OutputMissing)
    else
      var event := RiskEventFor(input, outputs[input.id], options, llm, now);
      if SchemaValid(event) then Succeeded(event) else Failed("Module 4 failed: " + RiskEventInvalid)
  }

  /** The error of a failed stage, if any. */
  function ErrorOf<T>(s: StageOutcome<T>): seq<string>
  {
    if s.Failed? then [s.error] else []
  }

  // ---------------------------------------------------------------------------
  // The run
  // ---------------------------------------------------------------------------

  /**
   * Stages 2 and 4 of a run whose stage 1 succeeded: stage 2 writes the
   * vulnerability score and its failure is only recorded; stage 4 reads the
   * updated Output and saves its event when the event passes the schema.
   */
  method RunLaterStages(db: Store, input: Input, options: PipelineOptions, llm: LlmReply, now: int)
    returns (s2: Stage2Step, s4: StageOutcome<RiskEvent>)
    requires db.Valid()
    modifies db
    ensures db.Valid()
    ensures db.inputs == old(db.inputs) && db.subscriptions == old(db.subscriptions) && db.users == old(db.users)
    ensures s2 == Stage2(input, old(db.outputs)) && s4 == Stage4(input, s2.outputs, options, llm, now)
    ensures db.outputs == s2.outputs
    ensures db.events == old(db.events) + (if s4.Succeeded? then [s4.data] else [])
  {
    // Stage 2: its failure is recorded and the run goes on.
    s2 := Stage2(input, db.outputs);
    db.outputs := s2.outputs;

    // Stage 4
    s4 := Stage4(input, db.outputs, options, llm, now);
    if s4.Succeeded? {
      db.events := db.events + [s4.data];
    }
  }

  /**
   * `runCompletePipeline`. The connection fault, greenness drop and vision
   * reply feed stage 1, the LLM reply feeds stage 4, and `now` is the clock
   * reading stage 4 stamps its event with.
   */
  method RunCompletePipeline(db: Store, identifier: string, options: PipelineOptions,
                             connectionFault: Option<string>, dropPct: int, vision: VisionReply,
                             llm: LlmReply, now: int) returns (res: PipelineResult)
    requires db.Valid()
    modifies db
    ensures db.Valid()
    ensures db.inputs == old(db.inputs) && db.subscriptions == old(db.subscriptions) && db.users == old(db.users)
    ensures res.identifier == identifier
    ensures res.success <==> SuccessfulModules(res) >= MinSuccessfulModules
    // No record: nothing ran, one error.
    ensures ResolveInput(old(db.inputs), identifier).None? ==>
              && res == PipelineResult(identifier, None, None, None, None, ["Input record not found for: " + identifier], false)
              && db.outputs == old(db.outputs) && db.events == old(db.events)
    // Stage 1 failed: early exit, nothing written.
    ensures res.module1.Some? && res.module1.value.Failed? ==>
              && res.module2.None? && res.module3.None? && res.module4.None?
              && res.errors == [res.module1.value.error] && !res.success
              && db.outputs == old(db.outputs) && db.events == old(db.events)
    // Stage 1 succeeded: stage 3 reports its carbon, every stage ran, and the run is a success.
    ensures res.module1.Some? && res.module1.value.Succeeded? ==>
              && res.module3 == Some(Succeeded(res.module1.value.data.extraCarbon))
              && res.module2.Some? && res.module4.Some?
              && res.errors == ErrorOf(res.module2.value) + ErrorOf(res.module4.value)
              && res.success
    // The stages, in terms of what each one saw.
    ensures ResolveInput(old(db.inputs), identifier).Some? ==>
              var input := ResolveInput(old(db.inputs), identifier).value;
              var s1 := MangroveTracking(old(db.inputs), old(db.outputs), input.parcelName, connectionFault, dropPct, vision);
              && res.module1.Some?
              && (s1.0.Err? ==> res.module1 == Some(Failed("Module 1 failed: " + s1.0.error)))
              && (s1.0.Ok? ==>
                    var s2 := Stage2(input, s1.1);
                    var s4 := Stage4(input, s2.outputs, options, llm, now);
                    && res.module1 == Some(Succeeded(s1.0.value))
                    && res.module2 == Some(s2.outcome)
                    && res.module4 == Some(s4)
                    && db.outputs == s2.outputs
                    && db.events == old(db.events) + (if s4.Succeeded? then [s4.data] else []))
  {
    var found := ResolveInput(db.inputs, identifier);
    if found.None? {
      res := PipelineResult(identifier, None, None, None, None, ["Input record not found for: " + identifier], false);
      return;
    }
    var input := found.value;

    // Stage 1: its failure ends the run.
    var m1 := ProcessMangroveTracking(db, input.parcelName, connectionFault, dropPct, vision);
    if m1.Err? {
      var message := "Module 1 failed: " + m1.error;
      res := PipelineResult(identifier, Some(Failed(message)), None, None, None, [message], false);
      return;
    }

    var s2, s4 := RunLaterStages(db, input, options, llm, now);

    // Stage 3 is reported from stage 1's carbon figure.
    var carbon := m1.value.extraCarbon;

    var partial := PipelineResult(identifier, Some(Succeeded(m1.value)), Some(s2.outcome), Some(Succeeded(carbon)), Some(s4),
                                  ErrorOf(s2.outcome) + ErrorOf(s4), false);
    res := partial.(success := SuccessfulModules(partial) >= MinSuccessfulModules);
  }

  /** The outcome of `runQuickPipeline`. */
  datatype QuickResult =
    | QuickSucceeded(riskEvent: RiskEvent, modulesCompleted: nat, errors: seq<string>)
    | QuickFailed(errors: seq<string>, result: PipelineResult)

  /** `runQuickPipeline`'s selection: the stage-4 event when the run and stage 4 both succeeded. */
  function SelectQuick(full: PipelineResult): (q: QuickResult)
    ensures q.QuickSucceeded? <==> full.success && full.module4.Some? && full.module4.value.Succeeded?
    ensures q.QuickSucceeded? ==> q.riskEvent == full.module4.value.data && q.modulesCompleted == SuccessfulModules(full)
    ensures q.errors == full.errors
  {
    if full.success && full.module4.Some? && full.module4.value.Succeeded? then
      QuickSucceeded(full.module4.value.data, SuccessfulModules(full), full.errors)
    else
      QuickFailed(full.errors, full)
  }

  /**
   * `runQuickPipeline`: the complete run, reported as the stage-4 event when
   * the run and stage 4 both succeeded. `full` is the complete run's result.
   */
  method RunQuickPipeline(db: Store, identifier: string, options: PipelineOptions,
                          connectionFault: Option<string>, dropPct: int, vision: VisionReply,
                          llm: LlmReply, now: int) returns (q: QuickResult, ghost full: PipelineResult)
    requires db.Valid()
    modifies db
    ensures db.Valid()
    ensures db.inputs == old(db.inputs) && db.subscriptions == old(db.subscriptions) && db.users == old(db.users)
    ensures q == SelectQuick(full)
    ensures full.identifier == identifier
    ensures full.success <==> SuccessfulModules(full) >= MinSuccessfulModules
    ensures q.QuickSucceeded? ==> db.events == old(db.events) + [q.riskEvent] && q.riskEvent.personal.None?
    ensures q.QuickFailed? ==> db.events == old(db.events)
    // No record: the full result carries the one error.
    ensures ResolveInput(old(db.inputs), identifier).None? ==>
              && q == QuickFailed(["Input record not found for: " + identifier], full)
              && full == PipelineResult(identifier, None, None, None, None, ["Input record not found for: " + identifier], false)
              && db.outputs == old(db.outputs)
    // A record: the event is stage 4's, exactly when stage 1 and stage 4 succeeded.
    ensures ResolveInput(old(db.inputs), identifier).Some? ==>
              var input := ResolveInput(old(db.inputs), identifier).value;
              var s1 := MangroveTracking(old(db.inputs), old(db.outputs), input.parcelName, connectionFault, dropPct, vision);
              && (s1.0.Err? ==> q == QuickFailed(["Module 1 failed: " + s1.0.error], full) && db.outputs == old(db.outputs))
              && (s1.0.Ok? ==>
                    var s2 := Stage2(input, s1.1);
                    var s4 := Stage4(input, s2.outputs, options, llm, now);
                    && db.outputs == s2.outputs
                    && (q.QuickSucceeded? <==> s4.Succeeded?)
                    && (s4.Succeeded? ==> q.riskEvent == s4.data)
                    && q.errors == ErrorOf(s2.outcome) + ErrorOf(s4))
  {
    var res := RunCompletePipeline(db, identifier, options, connectionFault, dropPct, vision, llm, now);
    q := SelectQuick(res);
    full := res;
  }
}
