/**
 * Localised alert text (BACKEND/src/lib/i18n.js): the English, Hindi and
 * Gujarati template table, the lookup with its fallback to English, the
 * single-pass `{name}` substitution and the SMS and dashboard grammars.
 */
module I18n {
  import opened Js
  import opened Scoring

  /**
   * Every risk template has the same shape: the placeholders `{village}`,
   * `{hours}` and `{why}`, in that order, between four fixed pieces of text.
   */
  datatype RiskTemplate = RiskTemplate(lead: string, afterVillage: string, afterHours: string, tail: string)
  {
    function Text(): string
    {
      lead + "{village}" + afterVillage + "{hours}" + afterHours + "{why}" + tail
    }

    /** No fixed piece contains a brace, so only the three placeholders are substituted. */
    predicate Plain()
    {
      '{' !in lead && '{' !in afterVillage && '{' !in afterHours && '{' !in tail
    }
  }

  // "High risk at {village} next {hours}h: {why}."
  const EnHigh := RiskTemplate("High risk at ", " next ", "h: ", ".")
  // "Medium risk at {village} next {hours}h: {why}."
  const EnMedium := RiskTemplate("Medium risk at ", " next ", "h: ", ".")
  const EnStaySafe: string := "Stay safe. Avoid shore."

  const HiHigh := RiskTemplate("", " में अगले ", " घंटे में उच्च जोखिम: ", ".")
  const HiMedium := RiskTemplate("", " में अगले ", " घंटे में मध्यम जोखिम: ", ".")
  const HiStaySafe: string := "सुरक्षित रहें। तट से दूर रहें।"

  const GuHigh := RiskTemplate("", " માં આગામી ", " કલાકમાં ઊંચો જોખમ: ", ".")
  const GuMedium := RiskTemplate("", " માં આગામી ", " કલાકમાં મધ્યમ જોખમ: ", ".")
  const GuStaySafe: string := "સાવચેત રહો. કિનારા થી દૂર રહો."

  const English: map<string, string> := map["riskHigh" := EnHigh.Text(), "riskMedium" := EnMedium.Text(), "staySafe" := EnStaySafe]

  /** The `messages` table, keyed by language code. */
  const Templates: map<string, map<string, string>> := map[
    "en" := English,
    "hi" := map["riskHigh" := HiHigh.Text(), "riskMedium" := HiMedium.Text(), "staySafe" := HiStaySafe],
    "gu" := map["riskHigh" := GuHigh.Text(), "riskMedium" := GuMedium.Text(), "staySafe" := GuStaySafe]
  ]

  /** The language whose table is used: the requested one if it exists, English otherwise. */
  function Effective(language: string): (l: string)
    ensures l in Templates
    ensures language in Templates ==> l == language
    ensures language !in Templates ==> l == "en"
  {
    if language in Templates then language else "en"
  }

  /** `getTemplate`: the language's entry, else the English entry, else "". */
  function GetTemplate(language: string, key: string): (t: string)
    ensures key !in Templates[Effective(language)] && key !in English ==> t == ""
    ensures key in Templates[Effective(language)] && Templates[Effective(language)][key] != "" ==> t == Templates[Effective(language)][key]
  {
    var table := Templates[Effective(language)];
    if key in table && table[key] != "" then table[key]
    else if key in English && English[key] != "" then English[key]
    else ""
  }

  /** The risk template a language uses for a high (Red) or medium (any other band) risk. */
  function RiskTemplateOf(language: string, high: bool): RiskTemplate
  {
    var l := Effective(language);
    if l == "hi" then (if high then HiHigh else HiMedium)
    else if l == "gu" then (if high then GuHigh else GuMedium)
    else (if high then EnHigh else EnMedium)
  }

  /** None of the six risk templates has a brace outside its placeholders. */
  lemma AllTemplatesPlain()
    ensures EnHigh.Plain() && EnMedium.Plain()
    ensures HiHigh.Plain() && HiMedium.Plain()
    ensures GuHigh.Plain() && GuMedium.Plain()
  {
    BraceFree("High risk at ");
    BraceFree("Medium risk at ");
    BraceFree(" next ");
    BraceFree("h: ");
    BraceFree(".");
    BraceFree("");
    BraceFree(" में अगले ");
    BraceFree(" घंटे में उच्च जोखिम: ");
    BraceFree(" घंटे में मध्यम जोखिम: ");
    BraceFree(" માં આગામી ");
    BraceFree(" કલાકમાં ઊંચો જોખમ: ");
    BraceFree(" કલાકમાં મધ્યમ જોખમ: ");
  }

  lemma BraceFree(s: string)
    requires forall i :: 0 <= i < |s| ==> s[i] != '{'
    ensures '{' !in s
  {
  }

  /** The stay-safe phrase of a language (English for an unknown code). */
  function StaySafeOf(language: string): string
  {
    var l := Effective(language);
    if l == "hi" then HiStaySafe else if l == "gu" then GuStaySafe else EnStaySafe
  }

  /** The table holds exactly the structured templates. */
  lemma {:induction false} TableMatchesTemplates(language: string)
    ensures GetTemplate(language, "riskHigh") == RiskTemplateOf(language, true).Text()
    ensures GetTemplate(language, "riskMedium") == RiskTemplateOf(language, false).Text()
    ensures GetTemplate(language, "staySafe") == StaySafeOf(language)
  {
    var l := Effective(language);
    assert l == "en" || l == "hi" || l == "gu";
    assert EnHigh.Text() != "" && EnMedium.Text() != "";
    if l == "hi" {
      assert HiHigh.Text() != "" && HiMedium.Text() != "" && HiStaySafe != "";
    } else if l == "gu" {
      assert GuHigh.Text() != "" && GuMedium.Text() != "" && GuStaySafe != "";
    }
  }

  // ---- `formatMessage`: one left-to-right pass of /\{(\w+)\}/g ----

  /** `\w`: an ASCII letter, digit or underscore. */
  predicate IsWordChar(c: char)
  {
    ('a' <= c <= 'z') || ('A' <= c <= 'Z') || ('0' <= c <= '9') || c == '_'
  }

  /** A placeholder name: one or more word characters. */
  predicate IsWord(s: string)
  {
    |s| > 0 && forall i :: 0 <= i < |s| ==> IsWordChar(s[i])
  }

  /** The length of the longest run of word characters at the start of `s`. */
  function WordRun(s: string): (n: nat)
    ensures n <= |s|
    ensures forall i :: 0 <= i < n ==> IsWordChar(s[i])
    ensures n < |s| ==> !IsWordChar(s[n])
  {
    if s != [] && IsWordChar(s[0]) then 1 + WordRun(s[1..]) else 0
  }

  /** When `t` begins with a placeholder `{name}`, the length of `name`. */
  function PlaceholderAt(t: string): (r: Option<nat>)
    ensures r.Some? ==> 0 < r.value && r.value + 2 <= |t| && IsWord(t[1..r.value + 1])
  {
    if |t| > 0 && t[0] == '{' then
      var n := WordRun(t[1..]);
      if n > 0 && 1 + n < |t| && t[1 + n] == '}' then Some(n) else None
    else None
  }

  /**
   * `formatMessage`: each `{name}` whose name is defined in `variables` is
   * replaced by its value; undefined ones stay as they are; substituted text
   * is never scanned again.
   */
  function FormatMessage(template: string, variables: map<string, string>): string
    decreases |template|
  {
    if template == [] then []
    else match PlaceholderAt(template)
      case Some(n) =>
        var name := template[1..n + 1];
        (if name in variables then variables[name] else template[..n + 2])
        + FormatMessage(template[n + 2..], variables)
      case None => [template[0]] + FormatMessage(template[1..], variables)
  }

  /** With no variables, formatting changes nothing. */
  lemma {:induction false} FormatIdentity(template: string)
    ensures FormatMessage(template, map[]) == template
    decreases |template|
  {
    if template != [] {
      match PlaceholderAt(template)
      case Some(n) =>
        FormatIdentity(template[n + 2..]);
        assert template == template[..n + 2] + template[n + 2..];
      case None =>
        FormatIdentity(template[1..]);
        assert template == [template[0]] + template[1..];
    }
  }

  /** Text without a '{' is copied unchanged. */
  lemma {:induction false} FormatLiteral(p: string, q: string, variables: map<string, string>)
    requires '{' !in p
    ensures FormatMessage(p + q, variables) == p + FormatMessage(q, variables)
    decreases |p|
  {
    if p != [] {
      var t := p + q;
      assert t[0] == p[0] && t[0] != '{';
      assert PlaceholderAt(t).None?;
      assert t[1..] == p[1..] + q;
      assert '{' !in p[1..] by {
        forall i | 0 <= i < |p[1..]| ensures p[1..][i] != '{' { assert p[1..][i] == p[i + 1]; }
      }
      FormatLiteral(p[1..], q, variables);
      calc {
        FormatMessage(t, variables);
        [p[0]] + FormatMessage(p[1..] + q, variables);
        [p[0]] + (p[1..] + FormatMessage(q, variables));
        { assert [p[0]] + p[1..] == p; }
        p + FormatMessage(q, variables);
      }
    } else {
      assert p + q == q;
    }
  }

  /** A placeholder is replaced by its value when defined and kept verbatim otherwise. */
  lemma {:induction false} FormatPlaceholder(name: string, q: string, variables: map<string, string>)
    requires IsWord(name)
    ensures FormatMessage("{" + name + "}" + q, variables)
            == (if name in variables then variables[name] else "{" + name + "}") + FormatMessage(q, variables)
  {
    var t := "{" + name + "}" + q;
    var n := |name|;
    WordRunOfWord(name, "}" + q);
    assert t[1..] == name + ("}" + q);
    assert PlaceholderAt(t) == Some(n);
    assert t[1..n + 1] == name;
    assert t[..n + 2] == "{" + name + "}";
    assert t[n + 2..] == q;
  }

  lemma {:induction false} WordRunOfWord(name: string, rest: string)
    requires IsWord(name)
    requires rest != [] && !IsWordChar(rest[0])
    ensures WordRun(name + rest) == |name|
    decreases |name|
  {
    var s := name + rest;
    assert s[0] == name[0];
    if |name| == 1 {
      assert s[1..] == rest;
    } else {
      assert s[1..] == name[1..] + rest;
      WordRunOfWord(name[1..], rest);
    }
  }

  /** Substituted values are not rescanned: a value that itself looks like a placeholder survives. */
  lemma SinglePassExample()
    ensures FormatMessage("{why}", map["why" := "{hours}", "hours" := "12"]) == "{hours}"
  {
    var vars := map["why" := "{hours}", "hours" := "12"];
    assert IsWord("why") by {
      forall i | 0 <= i < 3 ensures IsWordChar("why"[i]) {}
    }
    FormatPlaceholder("why", "", vars);
    assert "{" + "why" + "}" + "" == "{why}";
  }

  /** Literal text followed by a defined placeholder: the text, then the value. */
  lemma {:induction false} FormatSegment(lit: string, name: string, rest: string, variables: map<string, string>)
    requires '{' !in lit && IsWord(name) && name in variables
    ensures FormatMessage(lit + ("{" + name + "}") + rest, variables) == lit + variables[name] + FormatMessage(rest, variables)
  {
    assert lit + ("{" + name + "}") + rest == lit + ("{" + name + "}" + rest);
    FormatLiteral(lit, "{" + name + "}" + rest, variables);
    FormatPlaceholder(name, rest, variables);
  }

  /** Filling a risk template puts the three values between its fixed pieces. */
  lemma {:induction false} FormatRiskTemplate(t: RiskTemplate, variables: map<string, string>)
    requires t.Plain()
    requires "village" in variables && "hours" in variables && "why" in variables
    ensures FormatMessage(t.Text(), variables)
            == t.lead + variables["village"] + t.afterVillage + variables["hours"] + t.afterHours + variables["why"] + t.tail
  {
    PlaceholderNames();
    var v, h, w := variables["village"], variables["hours"], variables["why"];
    var pv, ph, pw := "{" + "village" + "}", "{" + "hours" + "}", "{" + "why" + "}";
    assert pv == "{village}" && ph == "{hours}" && pw == "{why}";
    var s3 := t.afterHours + pw + t.tail;
    var s2 := t.afterVillage + ph + s3;
    Regroup(t.lead, pv, t.afterVillage, ph, t.afterHours, pw, t.tail);
    FormatSegment(t.lead, "village", s2, variables);
    FormatSegment(t.afterVillage, "hours", s3, variables);
    FormatSegment(t.afterHours, "why", t.tail, variables);
    FormatLiteral(t.tail, "", variables);
    assert t.tail + "" == t.tail;
    assert FormatMessage("", variables) == "";
    Regroup(t.lead, v, t.afterVillage, h, t.afterHours, w, t.tail);
  }

  /** Concatenation regrouped to the right. */
  lemma Regroup(a: string, b: string, c: string, d: string, e: string, f: string, g: string)
    ensures a + b + c + d + e + f + g == a + b + (c + d + (e + f + g))
  {
    assert c + d + (e + f + g) == c + d + e + f + g;
  }

  /** The three placeholder names are words. */
  lemma PlaceholderNames()
    ensures IsWord("village") && IsWord("hours") && IsWord("why")
  {
    assert IsWord("village") by { forall i | 0 <= i < 7 ensures IsWordChar("village"[i]) {} }
    assert IsWord("hours") by { forall i | 0 <= i < 5 ensures IsWordChar("hours"[i]) {} }
    assert IsWord("why") by { forall i | 0 <= i < 3 ensures IsWordChar("why"[i]) {} }
  }

  /** `generateSMSMessage`: the filled risk template, a space, the stay-safe phrase, and " (SIM)" in simulation mode. */
  function GenerateSMSMessage(language: string, band: Band, village: string, hours: int, why: string, simulation: bool): string
  {
    var riskKey := if band == Red then "riskHigh" else "riskMedium";
    var riskTemplate := GetTemplate(language, riskKey);
    var staySafe := GetTemplate(language, "staySafe");
    var riskMessage := FormatMessage(riskTemplate, map["village" := village, "hours" := IntToString(hours), "why" := why]);
    var full := riskMessage + " " + staySafe;
    if simulation then full + " (SIM)" else full
  }

  /**
   * The SMS grammar: the high template exactly for Red and the medium one for
   * every other band, filled in, then one space and the stay-safe phrase,
   * then " (SIM)" if and only if in simulation mode.
   */
  lemma {:induction false} SmsGrammar(language: string, band: Band, village: string, hours: int, why: string, simulation: bool)
    ensures var t := RiskTemplateOf(language, band == Red);
            GenerateSMSMessage(language, band, village, hours, why, simulation)
            == t.lead + village + t.afterVillage + IntToString(hours) + t.afterHours + why + t.tail
               + " " + StaySafeOf(language) + (if simulation then " (SIM)" else "")
  {
    var t := RiskTemplateOf(language, band == Red);
    var variables := map["village" := village, "hours" := IntToString(hours), "why" := why];
    var riskKey := if band == Red then "riskHigh" else "riskMedium";
    TableMatchesTemplates(language);
    AllTemplatesPlain();
    assert GetTemplate(language, riskKey) == t.Text();
    FormatRiskTemplate(t, variables);
    var filled := t.lead + village + t.afterVillage + IntToString(hours) + t.afterHours + why + t.tail;
    assert FormatMessage(GetTemplate(language, riskKey), variables) == filled;
    assert GetTemplate(language, "staySafe") == StaySafeOf(language);
  }

  /** The English Red SMS, outside simulation mode. */
  lemma EnglishRedSms(village: string, hours: int, why: string)
    ensures GenerateSMSMessage("en", Red, village, hours, why, false)
            == "High risk at " + village + " next " + IntToString(hours) + "h: " + why + "." + " " + "Stay safe. Avoid shore."
  {
    SmsGrammar("en", Red, village, hours, why, false);
    assert RiskTemplateOf("en", true) == EnHigh && StaySafeOf("en") == EnStaySafe;
    var sms := "High risk at " + village + " next " + IntToString(hours) + "h: " + why + "." + " " + "Stay safe. Avoid shore.";
    assert sms + "" == sms;
  }

  lemma UnknownLanguageFallsBack(language: string, key: string)
    requires language !in Templates
    ensures GetTemplate(language, key) == GetTemplate("en", key)
  {
  }

  /** An unknown language code gets the English SMS. */
  lemma UnknownLanguageIsEnglish(language: string, band: Band, village: string, hours: int, why: string, simulation: bool)
    requires language !in Templates
    ensures GenerateSMSMessage(language, band, village, hours, why, simulation)
            == GenerateSMSMessage("en", band, village, hours, why, simulation)
  {
    SmsGrammar(language, band, village, hours, why, simulation);
    SmsGrammar("en", band, village, hours, why, simulation);
  }

  /** `generateDashboardMessage`: English only, whatever the user's language. */
  function GenerateDashboardMessage(band: Band, riskScore: int, village: string, hours: int, why: string): string
  {
    BandUpper(band) + ": Risk " + IntToString(riskScore) + "/100 for " + village
    + " (" + IntToString(hours) + "h). Reason: " + why + "."
  }

  /** The localised dashboard line is the same text as the risk engine's template dashboard line. */
  lemma DashboardAgreesWithRiskEngine(ctx: MessageContext)
    ensures GenerateDashboardMessage(ctx.band, ctx.riskScore, ctx.location, ctx.timeWindowHrs, ctx.why)
            == GenerateMessages(ctx).dashboard
  {
  }
}
