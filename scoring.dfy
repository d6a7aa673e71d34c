/**
 * Real-time risk scoring (BACKEND/src/lib/module4.js): the clamp, the weighted
 * risk formula, the Green/Yellow/Red bands, the deterministic "why" text, the
 * template messages and the fallback around the optional LLM rewrite.
 */
module Scoring {
  import opened Js

  datatype Band = Green | Yellow | Red

  /** The band as it is stored and shown ("Green", "Yellow", "Red"). */
  function BandName(b: Band): string
  {
    match b
    case Green => "Green"
    case Yellow => "Yellow"
    case Red => "Red"
  }

  /** `band.toUpperCase()`. */
  function BandUpper(b: Band): string
  {
    match b
    case Green => "GREEN"
    case Yellow => "YELLOW"
    case Red => "RED"
  }

  /** Severity order of the bands. */
  function Severity(b: Band): nat
  {
    match b
    case Green => 0
    case Yellow => 1
    case Red => 2
  }

  /** `clamp`: any value into [0, 100]; NaN (and so anything non-numeric) becomes 0. */
  function Clamp(v: JsNumber): (r: real)
    ensures 0.0 <= r <= 100.0
    ensures v.NaN? ==> r == 0.0
    ensures v.Num? && 0.0 <= v.value <= 100.0 ==> r == v.value
    ensures v.Num? && v.value < 0.0 ==> r == 0.0
    ensures v.Num? && v.value > 100.0 ==> r == 100.0
  {
    var x := OrNumber(v, 0.0);
    if x < 0.0 then 0.0 else if x > 100.0 then 100.0 else x
  }

  lemma ClampIdempotent(v: JsNumber)
    ensures Clamp(Num(Clamp(v))) == Clamp(v)
  {
  }

  lemma ClampMonotone(x: real, y: real)
    requires x <= y
    ensures Clamp(Num(x)) <= Clamp(Num(y))
  {
  }

  // WEIGHTS: rain 0.35, tide 0.30, vulnerability 0.25, exposure 0.10.
  const RainWeight: real := 0.35
  const TideWeight: real := 0.30
  const VulnWeight: real := 0.25
  const ExposureWeight: real := 0.10

  lemma WeightsSumToOne()
    ensures RainWeight + TideWeight + VulnWeight + ExposureWeight == 1.0
  {
  }

  // Thresholds: the Yellow and Red lower bounds and the driver threshold.
  const YellowFrom: int := 40
  const RedFrom: int := 70
  const DriverThreshold: real := 60.0

  const RainLabel: string := "heavy rain"
  const TideLabel: string := "high tide"
  const VulnLabel: string := "high vulnerability"
  const ExposureLabel: string := "dense population"
  const ModerateWhy: string := "moderate combined factors"

  datatype Risk = Risk(riskScore: int, band: Band, why: string)

  /** The band of a score: below 40 Green, below 70 Yellow, otherwise Red. */
  function BandOf(score: int): (b: Band)
    ensures b == Green <==> score < YellowFrom
    ensures b == Red <==> score >= RedFrom
  {
    if score < YellowFrom then Green else if score < RedFrom then Yellow else Red
  }

  /** A higher score never gives a lower band. */
  lemma BandMonotone(s: int, t: int)
    requires s <= t
    ensures Severity(BandOf(s)) <= Severity(BandOf(t))
  {
  }

  lemma BandBoundaries()
    ensures BandOf(39) == Green && BandOf(40) == Yellow
    ensures BandOf(69) == Yellow && BandOf(70) == Red
  {
  }

  /** The weighted combination of the four (already clamped) factors. */
  function WeightedSum(rain: real, tide: real, vuln: real, exposure: real): real
  {
    RainWeight * rain + TideWeight * tide + VulnWeight * vuln + ExposureWeight * exposure
  }

  /** The labels of the factors that reach the driver threshold, in rain, tide, vulnerability, exposure order. */
  function Drivers(rain: real, tide: real, vuln: real, exposure: real): (d: seq<string>)
    ensures RainLabel in d <==> rain >= DriverThreshold
    ensures TideLabel in d <==> tide >= DriverThreshold
    ensures VulnLabel in d <==> vuln >= DriverThreshold
    ensures ExposureLabel in d <==> exposure >= DriverThreshold
    ensures forall i, j :: 0 <= i < j < |d| ==> LabelRank(d[i]) < LabelRank(d[j])
    ensures forall i :: 0 <= i < |d| ==> d[i] in [RainLabel, TideLabel, VulnLabel, ExposureLabel]
  {
    (if rain >= DriverThreshold then [RainLabel] else [])
    + (if tide >= DriverThreshold then [TideLabel] else [])
    + (if vuln >= DriverThreshold then [VulnLabel] else [])
    + (if exposure >= DriverThreshold then [ExposureLabel] else [])
  }

  /** Position of a driver label in the fixed rain, tide, vulnerability, exposure order. */
  function LabelRank(driver: string): nat
  {
    if driver == RainLabel then 0
    else if driver == TideLabel then 1
    else if driver == VulnLabel then 2
    else 3
  }

  /** The deterministic reason: the driver labels joined by " + ", or "moderate combined factors". */
  function Why(rain: real, tide: real, vuln: real, exposure: real): (w: string)
    ensures w == ModerateWhy <==> Drivers(rain, tide, vuln, exposure) == []
    ensures Drivers(rain, tide, vuln, exposure) != [] ==> w == Join(Drivers(rain, tide, vuln, exposure), " + ")
    ensures w != ""
  {
    var d := Drivers(rain, tide, vuln, exposure);
    if |d| > 0 then
      JoinStartsWithHead(d, " + ");
      var j := Join(d, " + ");
      assert j[0] == d[0][0];
      assert ModerateWhy[0] == 'm';
      j
    else ModerateWhy
  }

  /** Rain at 70 and vulnerability at 80 are the only drivers, so the reason reads "heavy rain + high vulnerability". */
  lemma WhyExample()
    ensures Why(70.0, 10.0, 80.0, 10.0) == RainLabel + " + " + VulnLabel
  {
    var d := Drivers(70.0, 10.0, 80.0, 10.0);
    DriversExample();
    assert Join(d, " + ") == RainLabel + " + " + VulnLabel by {
      assert d[1..] == [VulnLabel];
    }
  }

  /** Only rain and vulnerability reach the threshold. */
  lemma DriversExample()
    ensures Drivers(70.0, 10.0, 80.0, 10.0) == [RainLabel, VulnLabel]
  {
    assert 70.0 >= DriverThreshold && 10.0 < DriverThreshold && 80.0 >= DriverThreshold;
    assert Drivers(70.0, 10.0, 80.0, 10.0) == [RainLabel] + [] + [VulnLabel] + [];
  }

  /** `computeRisk`: clamps the four factors, then scores, bands and explains them. */
  function ComputeRisk(rain01: JsNumber, tide01: JsNumber, vulnScore: JsNumber, exposure: JsNumber): (r: Risk)
    ensures 0 <= r.riskScore <= 100
    ensures r.band == BandOf(r.riskScore)
    ensures r.why == Why(Clamp(rain01), Clamp(tide01), Clamp(vulnScore), Clamp(exposure))
  {
    var rain, tide, vuln, exp := Clamp(rain01), Clamp(tide01), Clamp(vulnScore), Clamp(exposure);
    var score := Round(WeightedSum(rain, tide, vuln, exp));
    Risk(score, BandOf(score), Why(rain, tide, vuln, exp))
  }

  /** The score is the rounded weighted sum of the clamped factors. */
  lemma {:induction false} ScoreIsRoundedWeightedSum(rain01: JsNumber, tide01: JsNumber, vulnScore: JsNumber, exposure: JsNumber)
    ensures var s := WeightedSum(Clamp(rain01), Clamp(tide01), Clamp(vulnScore), Clamp(exposure));
            s - 0.5 < ComputeRisk(rain01, tide01, vulnScore, exposure).riskScore as real <= s + 0.5
  {
  }

  /** Raising any one factor never lowers the score. */
  lemma {:induction false} ScoreMonotone(rain: real, tide: real, vuln: real, exposure: real, d: real)
    requires d >= 0.0
    ensures ComputeRisk(Num(rain), Num(tide), Num(vuln), Num(exposure)).riskScore
            <= ComputeRisk(Num(rain + d), Num(tide), Num(vuln), Num(exposure)).riskScore
    ensures ComputeRisk(Num(rain), Num(tide), Num(vuln), Num(exposure)).riskScore
            <= ComputeRisk(Num(rain), Num(tide + d), Num(vuln), Num(exposure)).riskScore
    ensures ComputeRisk(Num(rain), Num(tide), Num(vuln), Num(exposure)).riskScore
            <= ComputeRisk(Num(rain), Num(tide), Num(vuln + d), Num(exposure)).riskScore
    ensures ComputeRisk(Num(rain), Num(tide), Num(vuln), Num(exposure)).riskScore
            <= ComputeRisk(Num(rain), Num(tide), Num(vuln), Num(exposure + d)).riskScore
  {
    var r, t, v, e := Clamp(Num(rain)), Clamp(Num(tide)), Clamp(Num(vuln)), Clamp(Num(exposure));
    ClampMonotone(rain, rain + d);
    ClampMonotone(tide, tide + d);
    ClampMonotone(vuln, vuln + d);
    ClampMonotone(exposure, exposure + d);
    RoundMonotone(WeightedSum(r, t, v, e), WeightedSum(Clamp(Num(rain + d)), t, v, e));
    RoundMonotone(WeightedSum(r, t, v, e), WeightedSum(r, Clamp(Num(tide + d)), v, e));
    RoundMonotone(WeightedSum(r, t, v, e), WeightedSum(r, t, Clamp(Num(vuln + d)), e));
    RoundMonotone(WeightedSum(r, t, v, e), WeightedSum(r, t, v, Clamp(Num(exposure + d))));
  }

  /** The worked example: rain 80, tide 50, vulnerability 60, exposure 70 scores 65, Yellow. */
  lemma EndToEndExample()
    ensures ComputeRisk(Num(80.0), Num(50.0), Num(60.0), Num(70.0)).riskScore == 65
    ensures ComputeRisk(Num(80.0), Num(50.0), Num(60.0), Num(70.0)).band == Yellow
  {
    assert WeightedSum(80.0, 50.0, 60.0, 70.0) == 65.0;
  }

  /** What the message templates are filled from. */
  datatype MessageContext = MessageContext(location: string, riskScore: int, band: Band, why: string, timeWindowHrs: int)

  datatype Messages = Messages(smsShort: string, dashboard: string)

  /** The band's emoji: red, yellow or green circle. */
  function Emoji(b: Band): (e: string)
    ensures |e| == 1
  {
    match b
    case Red => "\U{1F534}"
    case Yellow => "\U{1F7E1}"
    case Green => "\U{1F7E2}"
  }

  /** The English dashboard line "BAND: Risk s/100 for loc (hh). Reason: why." */
  function DashboardLine(b: Band, riskScore: int, location: string, hours: int, why: string): string
  {
    BandUpper(b) + ": Risk " + IntToString(riskScore) + "/100 for " + location
    + " (" + IntToString(hours) + "h). Reason: " + why + "."
  }

  /** The English SMS text after the emoji: "Band risk at loc next hh: why. Stay safe." */
  function SmsLine(b: Band, location: string, hours: int, why: string): string
  {
    BandName(b) + " risk at " + location + " next " + IntToString(hours) + "h: " + why + ". Stay safe."
  }

  /** `generateMessages`: the emoji SMS and the dashboard line. */
  function GenerateMessages(ctx: MessageContext): (m: Messages)
    ensures |m.smsShort| > 1 && m.smsShort[..1] == Emoji(ctx.band)
    ensures m.smsShort == Emoji(ctx.band) + " " + SmsLine(ctx.band, ctx.location, ctx.timeWindowHrs, ctx.why)
    ensures m.dashboard == DashboardLine(ctx.band, ctx.riskScore, ctx.location, ctx.timeWindowHrs, ctx.why)
  {
    var sms := Emoji(ctx.band) + " " + SmsLine(ctx.band, ctx.location, ctx.timeWindowHrs, ctx.why);
    Messages(sms, DashboardLine(ctx.band, ctx.riskScore, ctx.location, ctx.timeWindowHrs, ctx.why))
  }

  /** The SMS text ends with the reason and the stay-safe phrase. */
  lemma {:induction false} SmsEndsWithReason(ctx: MessageContext)
    ensures var s := GenerateMessages(ctx).smsShort;
            var tail := ctx.why + ". Stay safe.";
            |s| >= |tail| && s[|s| - |tail|..] == tail
  {
    var tail := ctx.why + ". Stay safe.";
    var pre := BandName(ctx.band) + " risk at " + ctx.location + " next " + IntToString(ctx.timeWindowHrs) + "h: ";
    assert SmsLine(ctx.band, ctx.location, ctx.timeWindowHrs, ctx.why) == pre + tail;
    var head := Emoji(ctx.band) + " " + pre;
    assert GenerateMessages(ctx).smsShort == head + tail;
    EndsWith(head, tail);
  }

  /** The last |b| characters of `a + b` are `b`. */
  lemma EndsWith(a: string, b: string)
    ensures |a + b| >= |b| && (a + b)[|a + b| - |b|..] == b
  {
    assert |a + b| - |b| == |a|;
  }

  /**
   * What the LLM collaborator gave back: no API key configured, a failed call
   * (network error, no JSON in the text, unparsable JSON), or the parsed
   * object's three properties, each possibly missing.
   */
  datatype LlmReply =
    | NoApiKey
    | CallFailed
    | Replied(why: Option<string>, smsShort: Option<string>, dashboard: Option<string>)

  datatype Enhanced = Enhanced(why: string, smsShort: string, dashboard: string)

  /** The reply is used only when all three properties are present and non-empty. */
  predicate Accepted(reply: LlmReply)
  {
    reply.Replied? && Filled(reply.why) && Filled(reply.smsShort) && Filled(reply.dashboard)
  }

  /** The deterministic result: the context's own reason and the template messages. */
  function Fallback(ctx: MessageContext): (e: Enhanced)
    ensures e.why == ctx.why
    ensures e.smsShort == GenerateMessages(ctx).smsShort && e.dashboard == GenerateMessages(ctx).dashboard
  {
    var m := GenerateMessages(ctx);
    Enhanced(ctx.why, m.smsShort, m.dashboard)
  }

  /** `maybeLLMEnhanceMessages`: the LLM's reply when it is complete, the template otherwise. */
  function MaybeEnhanceMessages(ctx: MessageContext, reply: LlmReply): (e: Enhanced)
    ensures Accepted(reply) ==> e == Enhanced(reply.why.value, reply.smsShort.value, reply.dashboard.value)
    ensures !Accepted(reply) ==> e == Fallback(ctx)
    ensures ctx.why != "" ==> e.why != "" && e.smsShort != "" && e.dashboard != ""
  {
    if Accepted(reply) then Enhanced(reply.why.value, reply.smsShort.value, reply.dashboard.value)
    else Fallback(ctx)
  }

  /** A missing key, a failed call and an incomplete reply all give the same result. */
  lemma FallbackEquivalence(ctx: MessageContext, why: Option<string>, sms: Option<string>, dash: Option<string>)
    requires !Filled(why) || !Filled(sms) || !Filled(dash)
    ensures MaybeEnhanceMessages(ctx, NoApiKey) == MaybeEnhanceMessages(ctx, CallFailed)
            == MaybeEnhanceMessages(ctx, Replied(why, sms, dash)) == Fallback(ctx)
  {
  }
}
