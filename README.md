# Coastal mangrove risk engine: a Dafny model

This project models the back end of a coastal-risk service. A parcel of mangrove
coast has an `Input` record that holds rainfall, tide, exposure and vulnerability
sub-scores, together with before/after imagery.

A four-stage pipeline processes each parcel:

1. **Module 1** decides from a greenness drop and a vision-model verdict whether
   mangrove was lost. It computes the lost area, the carbon equivalent and a
   mangrove score, and upserts the parcel's `Output` document.
2. **Module 2** composes a vulnerability score.
3. **Module 3** reports the carbon figure that module 1 already computed.
4. **Module 4** clamps the four factors, scores them (weights 0.35/0.30/0.25/0.10),
   bands the score (Green < 40 <= Yellow < 70 <= Red) and explains it. It writes
   an SMS and a dashboard line, optionally rewritten by a language model, and
   stores a `RiskEvent`.

The alert generator fans a non-Green risk event out to the users who subscribe
to its parcel. It throttles repeats of the same parcel and band. It skips users
over a daily cap and unknown users. Each user gets a copy of the event in their
own language (English, Hindi or Gujarati), and Red events are also emailed. A
sweep dispatches every source event of the last hour. An inbox lists, newest
first, the events at the locations a user follows.

The model is split into these modules:

| module | file | models |
|---|---|---|
| `Js` | `js.dfy` | the JavaScript semantics the code relies on: `??`, `\|\|` on numbers and strings, `Math.round`, NaN, template-literal number printing, `join` |
| `Scoring` | `scoring.dfy` | `BACKEND/src/lib/module4.js` (pure functions) |
| `I18n` | `i18n.dfy` | `BACKEND/src/lib/i18n.js` (pure functions over the template table) |
| `Records` | `records.dfy` | the `Input`, `Output`, `RiskEvent`, `Subscription` and `User` documents; the `Store` class holds the five collections and is updated in place |
| `Mangrove` | `mangrove.dfy` | `BACKEND/src/lib/module1.js` |
| `Pipeline` | `pipeline.dfy` | `BACKEND/src/lib/pipeline.js` |
| `Recency` | `recency.dfy` | the `sort({ generatedAt: -1 })` that the alert queries apply |
| `Alerts` | `alerts.dfy` | `BACKEND/src/lib/alertGenerator.js` |

The database operations are methods with `modifies db` on a `Store`. Each one is
proved against a specification function of the old store:

- `MangroveTracking` for module 1;
- `Stage2` and `Stage4` for the pipeline;
- `Dispatch` for alert generation, whose loop over subscriptions is `FanOut`;
- `Sweep` for the sweep.

The properties the system promises are lemmas about those functions.

The following are parameters of the model:

- the time (`now`, the day start);
- the vision model's reply, the greenness drop and the language model's reply;
- whether the database connection fails.

Email delivery is an oracle whose outcome is arbitrary. The clock the sweep
reads is an oracle that never goes backwards.

## Model

| member | source | states |
|---|---|---|
| Js.Coalesce | BACKEND/src/lib/pipeline.js:148 | `??` falls back only on an absent value, so an empty string or 0 is kept |
| Js.OrNumber | BACKEND/src/lib/module4.js:4 | `x \|\| d` on a number gives `d` for NaN and 0, and `x` otherwise |
| Js.Round | BACKEND/src/lib/module4.js:27-32 | `Math.round` lands within half a unit of its argument |
| Js.Round2 | BACKEND/src/lib/module1.js:252 | rounding to two decimals moves a value by at most 0.005 |
| Js.RoundMonotone | BACKEND/src/lib/module4.js:27-32 | rounding never reverses the order of two values |
| Js.IntToString | BACKEND/src/lib/module4.js:58 | a number prints as a non-empty decimal text, with a leading '-' when negative |
| Js.JoinStartsWithHead | BACKEND/src/lib/module4.js:44 | a joined list of driver labels begins with the first label |
| Scoring.Clamp | BACKEND/src/lib/module4.js:4 | the result lies in [0, 100]; NaN gives 0; values in range are kept; values outside are cut to the nearer bound |
| Scoring.ClampIdempotent | BACKEND/src/lib/module4.js:4 | clamping a clamped value changes nothing |
| Scoring.ClampMonotone | BACKEND/src/lib/module4.js:4 | clamping keeps the order of two values |
| Scoring.WeightsSumToOne | BACKEND/src/lib/module4.js:7-12 | the four weights add up to 1, so the score stays on the 0-100 scale |
| Scoring.BandOf | BACKEND/src/lib/module4.js:35 | Green exactly below 40; Red exactly from 70; Yellow in between |
| Scoring.BandMonotone | BACKEND/src/lib/module4.js:35 | a higher score never gives a less severe band |
| Scoring.BandBoundaries | BACKEND/src/lib/module4.js:35 | 39 is Green, 40 Yellow, 69 Yellow, 70 Red |
| Scoring.Drivers | BACKEND/src/lib/module4.js:38-42 | each factor's label is listed exactly when the factor reaches 60; only the four labels appear, in the fixed rain, tide, vulnerability, exposure order |
| Scoring.Why | BACKEND/src/lib/module4.js:44 | the reason is never empty; it is "moderate combined factors" exactly when no factor is a driver, and otherwise the driver labels joined by " + " |
| Scoring.DriversExample | BACKEND/src/lib/module4.js:38-42 | with rain 70, tide 10, vulnerability 80 and exposure 10, only rain and vulnerability are drivers |
| Scoring.WhyExample | BACKEND/src/lib/module4.js:38-44 | the same factors give the reason "heavy rain + high vulnerability" |
| Scoring.ComputeRisk | BACKEND/src/lib/module4.js:19-47 | the score lies in [0, 100]; the band is the score's band; the reason is computed from the clamped factors |
| Scoring.ScoreIsRoundedWeightedSum | BACKEND/src/lib/module4.js:21-32 | the score is the weighted sum of the clamped factors, rounded half up |
| Scoring.ScoreMonotone | BACKEND/src/lib/module4.js:21-32 | raising any one factor never lowers the score |
| Scoring.EndToEndExample | BACKEND/src/lib/module4.js:19-47 | rain 80, tide 50, vulnerability 60 and exposure 70 give score 65, band Yellow |
| Scoring.Emoji | BACKEND/src/lib/module4.js:55 | every band has a one-character emoji |
| Scoring.GenerateMessages | BACKEND/src/lib/module4.js:54-62 | the SMS is the band's emoji, a space and "Band risk at location next Nh: reason. Stay safe."; the dashboard line is the English band/score/location/window/reason line |
| Scoring.SmsEndsWithReason | BACKEND/src/lib/module4.js:58 | the SMS ends with the reason, a full stop and the stay-safe phrase |
| Scoring.Fallback | BACKEND/src/lib/module4.js:129-142 | the fallback keeps the deterministic reason and the template SMS and dashboard line |
| Scoring.MaybeEnhanceMessages | BACKEND/src/lib/module4.js:69-143 | a reply whose three properties are all non-empty is used as is; any other outcome gives the fallback; with a non-empty reason all three texts are non-empty |
| Scoring.FallbackEquivalence | BACKEND/src/lib/module4.js:71-79 | a missing API key, a failed call and an incomplete reply give the same result |
| I18n.Effective | BACKEND/src/lib/i18n.js:27 | a known language is kept; an unknown one falls back to English |
| I18n.GetTemplate | BACKEND/src/lib/i18n.js:26-29 | a key missing from both the language and English gives ""; a non-empty entry of the language is returned as is |
| I18n.AllTemplatesPlain | BACKEND/src/lib/i18n.js:2-18 | no risk template of any language has a brace outside its three placeholders |
| I18n.TableMatchesTemplates | BACKEND/src/lib/i18n.js:2-18 | for every language, the riskHigh, riskMedium and staySafe lookups are the structured templates used in the proofs |
| I18n.FormatIdentity | BACKEND/src/lib/i18n.js:37-41 | formatting with no variables returns the template unchanged |
| I18n.FormatLiteral | BACKEND/src/lib/i18n.js:37-41 | text without a '{' is copied unchanged |
| I18n.FormatPlaceholder | BACKEND/src/lib/i18n.js:37-41 | `{name}` is replaced by its value when defined, and kept verbatim when undefined |
| I18n.FormatSegment | BACKEND/src/lib/i18n.js:37-41 | literal text followed by a defined placeholder becomes the text followed by the value |
| I18n.SinglePassExample | BACKEND/src/lib/i18n.js:37-41 | a substituted value is not rescanned, so a value "{hours}" survives |
| I18n.FormatRiskTemplate | BACKEND/src/lib/i18n.js:37-41 | filling a risk template puts the village, hours and reason between its fixed pieces |
| I18n.SmsGrammar | BACKEND/src/lib/i18n.js:53-62 | the SMS is the language's high (Red) or medium template, filled, then a space and the stay-safe phrase, then " (SIM)" exactly in simulation mode |
| I18n.EnglishRedSms | BACKEND/src/lib/i18n.js:53-62 | the English Red SMS reads "High risk at V next Hh: W. Stay safe. Avoid shore." |
| I18n.UnknownLanguageFallsBack | BACKEND/src/lib/i18n.js:26-29 | every key of an unknown language is looked up in English |
| I18n.UnknownLanguageIsEnglish | BACKEND/src/lib/i18n.js:53-62 | an unknown language gets exactly the English SMS |
| I18n.DashboardAgreesWithRiskEngine | BACKEND/src/lib/i18n.js:73-75 | the localised dashboard line is the same text as the risk engine's dashboard line |
| Mangrove.FetchInputDataByName | BACKEND/src/lib/module1.js:22-36 | the record is the first one with this parcelName, or else the first one with this legacy name; there is none exactly when neither field matches |
| Mangrove.GetAreaValue | BACKEND/src/lib/module1.js:57-59 | the area is areaTotal when truthy, else areaHa when truthy, else 0 (a stored 0 falls through) |
| Mangrove.Salvage | BACKEND/src/lib/module1.js:155-163 | a reply that is not JSON is a loss exactly when its lower-cased text contains "yes"; it gets Medium confidence and score 0.5 |
| Mangrove.UnitScore | BACKEND/src/lib/module1.js:168 | a numeric result lies in [0, 1]; a falsy score gives 0.5; a truthy number in [0, 1] is kept, a negative one gives 0 and one above 1 gives 1; the result is NaN exactly when the score is truthy text that is not a number |
| Mangrove.NormalizeVision | BACKEND/src/lib/module1.js:142-186 | a numeric score lies in [0, 1] and the score is NaN exactly when the parsed reply held a truthy non-number; the verdict is Loss exactly when the model said "yes"; an unparsable reply scores 0.5; a failed call is NoLoss with score 0.5, the error text as analysis and no raw response |
| Mangrove.Module1FieldsOf | BACKEND/src/lib/module1.js:219-258 | the state is Loss exactly when the vision verdict is Loss or the drop is at least 25; review is needed exactly when the parsed confidence is Low; mangScore lies in [0, 100]; it is the rounded vision score times 100 when that score is positive, and 100 - drop (at least 0) when it is NaN or 0; lost area and carbon are rounded to two decimals from the unrounded lost area |
| Mangrove.LostAreaBounds | BACKEND/src/lib/module1.js:230-231 | for a drop in [0, 100], the lost area lies between 0 and the parcel's area, and is 0 when there is no loss |
| Mangrove.FailedVisionDefersToDrop | BACKEND/src/lib/module1.js:219-247 | when the vision call fails, the drop alone decides the state and no review is asked for |
| Mangrove.MangScoreFallback | BACKEND/src/lib/module1.js:168-235 | a truthy vision score that is not a number, or is at most 0, gives the mangrove score 100 - drop |
| Mangrove.MissingScoreIsFifty | BACKEND/src/lib/module1.js:168-235 | a falsy vision score becomes 0.5, so the mangrove score is 50 whatever the drop |
| Mangrove.DropOverridesVerdict | BACKEND/src/lib/module1.js:219-255 | a 30% drop is a loss even when the model says "no": on 100 ha that is 30 ha and 300 t CO2e |
| Mangrove.UpsertStage1 | BACKEND/src/lib/module1.js:260-282 | the module-1 fields are written; an existing vulnerability score and risk fields are kept; a new or score-less document gets vulnerability 50 |
| Mangrove.UpsertIdempotent | BACKEND/src/lib/module1.js:264-274 | re-running stage 1 with the same fields changes nothing |
| Mangrove.UpsertKeepsStage2Score | BACKEND/src/lib/module1.js:271 | a vulnerability score written by stage 2 survives any later stage-1 run |
| Mangrove.ProcessMangroveTracking | BACKEND/src/lib/module1.js:196-292 | a connection fault or a missing record fails with the "Module 1 processing failed: " prefix and leaves the store alone; otherwise the Output is upserted with the module-1 fields; the result and new outputs are those of `MangroveTracking`; only outputs change |
| Pipeline.SuccessfulModules | BACKEND/src/lib/pipeline.js:200 | at most four stages count as successful |
| Pipeline.ResolveInput | BACKEND/src/lib/pipeline.js:32-42 | a 24-hex-digit identifier is looked up by id, ignoring the case of the hex digits, and any other by parcelName; a result is a stored record matching the key; no result means no record matches |
| Pipeline.IdCaseIsIgnored | BACKEND/src/lib/pipeline.js:33-34 | an id in upper-case hex is still a valid id and finds the same record as its lower-case form |
| Pipeline.StageOneSeesResolvedRecord | BACKEND/src/lib/pipeline.js:32-49 | with unique parcel names, stage 1's lookup by the resolved record's name finds that same record |
| Pipeline.ComposeVulnScore | BACKEND/src/lib/pipeline.js:79-84 | for sub-scores in [0, 100], the vulnerability score lies in [0, 100] |
| Pipeline.VulnScoreExample | BACKEND/src/lib/pipeline.js:79-84 | elevation 80, distance 60, land cover 40 and mangrove 50 give 60 |
| Pipeline.Stage2 | BACKEND/src/lib/pipeline.js:66-104 | stage 2 fails exactly when a sub-score is falsy or the Output or its mangScore is missing, and then leaves outputs alone; on success only vulnScore is written |
| Pipeline.Rain01 | BACKEND/src/lib/pipeline.js:128 | rain on the 0-100 scale lies in [0, 100]; missing rain gives 0 |
| Pipeline.Tide01 | BACKEND/src/lib/pipeline.js:129 | tide on the 0-100 scale lies in [0, 100]; missing tide gives 0 |
| Pipeline.Exposure | BACKEND/src/lib/pipeline.js:130 | exposure lies in [0, 100] |
| Pipeline.Vulnerability | BACKEND/src/lib/pipeline.js:131 | a missing or zero vulnerability score becomes 50; a score in (0, 100] is kept; the result lies in [0, 100] |
| Pipeline.TimeWindow | BACKEND/src/lib/pipeline.js:142 | a given non-zero window is kept; a missing or zero window becomes 12 |
| Pipeline.Audience | BACKEND/src/lib/pipeline.js:145 | a given audience (even an empty one) is kept; otherwise people and officials |
| Pipeline.Location | BACKEND/src/lib/pipeline.js:148 | villageName, else the legacy VillageName, else parcelName; an empty name is kept |
| Pipeline.RiskEventFor | BACKEND/src/lib/pipeline.js:126-181 | the event carries the computed score and band, the record's parcel, location, window and audience, the time `now` and no user; its three texts are non-empty; without an accepted reply the SMS is the template SMS |
| Pipeline.Stage4 | BACKEND/src/lib/pipeline.js:119-197 | a missing Output fails with its message; success stores exactly `RiskEventFor`; a schema-valid event always succeeds |
| Pipeline.RunLaterStages | BACKEND/src/lib/pipeline.js:64-197 | stages 2 and 4 run in order on the store: outputs become stage 2's, and stage 4's event is appended on success |
| Pipeline.RunCompletePipeline | BACKEND/src/lib/pipeline.js:14-212 | an unresolved identifier records one error and runs no stage; a failed stage 1 stops the run; after a successful stage 1, stages 2 and 4 run on what stage 1 left, stage 3 reports its carbon and the run succeeds; success always means at least two stages succeeded; inputs, subscriptions and users are untouched |
| Pipeline.SelectQuick | BACKEND/src/lib/pipeline.js:223-238 | success exactly when the run and stage 4 both succeeded, returning stage 4's event and the count of successful stages; the errors are passed on either way |
| Pipeline.RunQuickPipeline | BACKEND/src/lib/pipeline.js:220-239 | the result is the complete run's result reduced by SelectQuick; no record fails with the not-found error; a failed stage 1 fails with its error and writes nothing; otherwise the quick run succeeds exactly when stage 4 did, returning stage 4's event with the errors of stages 2 and 4; a quick success has stored exactly its returned event, with no user, and a quick failure stored no event |
| Recency.InsertKeepsOrder | BACKEND/src/lib/alertGenerator.js:242 | inserting into a newest-first list keeps it newest first |
| Recency.SortByRecency | BACKEND/src/lib/alertGenerator.js:242 | the sorted events are newest first and a permutation of the input |
| Recency.SortedMembers | BACKEND/src/lib/alertGenerator.js:242 | sorting neither adds nor drops an event |
| Recency.Take | BACKEND/src/lib/alertGenerator.js:243 | the first `limit` events, or all of them when the limit is 0 or not reached; always a prefix |
| Alerts.SourceConfig | BACKEND/src/lib/alertGenerator.js:8-10 | no cooldown, a cap of 999 a day, and the SIMULATION flag |
| Alerts.Hours | BACKEND/src/lib/alertGenerator.js:66 | a missing time window defaults to 12 |
| Alerts.CooldownStart | BACKEND/src/lib/alertGenerator.js:19 | the throttle window starts no later than now, and at now when the cooldown is 0 |
| Alerts.ShouldThrottleAlert | BACKEND/src/lib/alertGenerator.js:18-28 | throttled exactly when a stored event has this parcel and band and is not older than the window start |
| Alerts.ActiveFor | BACKEND/src/lib/alertGenerator.js:80-83 | exactly the active subscriptions to the parcel, in store order (a subsequence of the store) |
| Alerts.ActiveOf | BACKEND/src/lib/alertGenerator.js:37 | exactly the user's active subscriptions, in store order (a subsequence of the store) |
| Alerts.CountTodayGrows | BACKEND/src/lib/alertGenerator.js:45-49 | storing more events never lowers the day's count |
| Alerts.HasExceededDailyCap | BACKEND/src/lib/alertGenerator.js:35-52 | over the cap exactly when the user has active subscriptions and today's people-facing events on their parcels reach the cap |
| Alerts.FindUser | BACKEND/src/lib/alertGenerator.js:100-104 | a stored user with that id, or none when no user has it |
| Alerts.WordingIsLegible | BACKEND/src/lib/alertGenerator.js:107-122 | the localised SMS and dashboard line are non-empty in every language |
| Alerts.WordingOf | BACKEND/src/lib/alertGenerator.js:107-122 | a user's SMS is the localised SMS in their language; the dashboard line is the English one |
| Alerts.AlertEventSaves | BACKEND/src/lib/alertGenerator.js:124-145 | a user alert saves exactly when the risk event it copies is valid |
| Alerts.VisitRecords | BACKEND/src/lib/alertGenerator.js:92-179 | one subscription keeps the store's earlier events and adds one stored event per reported alert |
| Alerts.FanOutRecords | BACKEND/src/lib/alertGenerator.js:92-180 | the whole loop keeps the earlier events, and the k-th new event is the k-th alert |
| Alerts.DispatchRecords | BACKEND/src/lib/alertGenerator.js:65-183 | the same holds for a whole dispatch |
| Alerts.GreenIsSilent | BACKEND/src/lib/alertGenerator.js:69-71 | a Green event generates no alert and writes nothing |
| Alerts.FanOutStoresAlert | BACKEND/src/lib/alertGenerator.js:124-179 | the k-th stored alert copies the event and has the user's id, language and wording |
| Alerts.AlertsCopyTheEvent | BACKEND/src/lib/alertGenerator.js:125-145 | each stored alert has the event's parcel, location, score, band, reason and window, the audience people and the time of dispatch |
| Alerts.AlertsAreLocalised | BACKEND/src/lib/alertGenerator.js:107-122 | each alert carries the SMS in its user's language and the English dashboard line |
| Alerts.EmailOnlyForRed | BACKEND/src/lib/alertGenerator.js:148-167 | an email is attempted exactly for a Red event and a user with a non-empty email address |
| Alerts.VisitShape | BACKEND/src/lib/alertGenerator.js:92-179 | one subscription adds no alert, or exactly one for that subscription's user |
| Alerts.FanOutFollowsTargets | BACKEND/src/lib/alertGenerator.js:92-180 | the alerts' users are the subscribers in subscription order with some left out, so there is at most one alert per subscription |
| Alerts.AlertsFollowSubscriptions | BACKEND/src/lib/alertGenerator.js:80-180 | every alert goes to a user with an active subscription to the parcel, at most one per subscription, in subscription order |
| Alerts.FanOutExtends | BACKEND/src/lib/alertGenerator.js:144-145 | the fan-out only ever appends events |
| Alerts.CappedUserGetsNothing | BACKEND/src/lib/alertGenerator.js:94-97 | a user at the cap when the loop starts gets no alert from it |
| Alerts.CappedUserIsSkipped | BACKEND/src/lib/alertGenerator.js:94-97 | a user at the cap when an event is dispatched gets no alert from it |
| Alerts.RepeatIsThrottled | BACKEND/src/lib/alertGenerator.js:74-77 | after a dispatch that generated alerts, the same parcel and band is throttled until the cooldown has passed |
| Alerts.NotifySubscriber | BACKEND/src/lib/alertGenerator.js:92-179 | one subscription's step on the store is one `Visit`: the events and the result are those of the specification, and only the events change |
| Alerts.NotifySubscribers | BACKEND/src/lib/alertGenerator.js:90-182 | the loop over the subscriptions leaves the store's events and alerts equal to `FanOut`'s |
| Alerts.DispatchAlerts | BACKEND/src/lib/alertGenerator.js:65-183 | for any legible wording, the alerts and stored events are `DispatchWith`'s |
| Alerts.GenerateAlertsForRisk | BACKEND/src/lib/alertGenerator.js:65-183 | the alerts and stored events are `Dispatch`'s, so every property above holds of a call |
| Alerts.RecentFilter | BACKEND/src/lib/alertGenerator.js:194-196 | exactly the source events of the last hour |
| Alerts.RecentSources | BACKEND/src/lib/alertGenerator.js:192-197 | exactly the stored source events of the last hour, newest first |
| Alerts.InfoOf | BACKEND/src/lib/alertGenerator.js:202-209 | the risk event handed on from a valid stored event is valid, and keeps its window |
| Alerts.RecentSourcesAreValid | BACKEND/src/lib/alertGenerator.js:194-209 | in a store where every event passed validation, each recent source hands on a valid risk event |
| Alerts.LocaliseIsLegible | BACKEND/src/lib/alertGenerator.js:107-122 | the localised texts of every risk event are legible |
| Alerts.DispatchExtends | BACKEND/src/lib/alertGenerator.js:144-145 | a dispatch appends exactly one event per alert |
| Alerts.SweepCountsStoredAlerts | BACKEND/src/lib/alertGenerator.js:199-215 | the sweep's total is the number of events it appended, and the earlier events are kept |
| Alerts.ReadClock | BACKEND/src/lib/alertGenerator.js:138 | the clock never goes backwards |
| Alerts.SweepOne | BACKEND/src/lib/alertGenerator.js:201-211 | one iteration of the sweep advances its specification by one source, at a clock reading no earlier than the last |
| Alerts.SweepSources | BACKEND/src/lib/alertGenerator.js:199-212 | the loop's store and total are `SweepWith`'s, with non-decreasing clock readings from `now` on |
| Alerts.ProcessRecentRiskEvents | BACKEND/src/lib/alertGenerator.js:189-220 | processed is the number of recent sources; the store and total are those of `Sweep` on them |
| Alerts.AtLocations | BACKEND/src/lib/alertGenerator.js:239-241 | exactly the events at one of the locations |
| Alerts.GetUserAlerts | BACKEND/src/lib/alertGenerator.js:228-262 | each item is the shaped form of a selected event, in the same order |
| Alerts.InboxIsNewestFirst | BACKEND/src/lib/alertGenerator.js:231-243 | no active subscription gives an empty inbox; there are never more items than the limit; items are newest first |
| Alerts.InboxShowsFollowedEvents | BACKEND/src/lib/alertGenerator.js:239-257 | each item is a stored event, shown as stored, at a location the user follows; it is a user alert exactly when it has a user |
| Alerts.InboxMissesOnlyOlder | BACKEND/src/lib/alertGenerator.js:239-243 | a followed event missing from the inbox means the limit was reached, and it is no newer than the last item |

## Left out

- Network, file and database I/O, logging, the OpenAI and vision calls, image reading and path resolution are not modelled. Their outcomes are parameters: the vision reply, the language-model reply, the greenness drop and a connection fault.
- `calculateGreennessDropPct` uses `Math.random`, so the drop is a parameter of stage 1.
- `sendHighRiskAlert` (emailService.js) is not part of this model. Its result is an arbitrary boolean, and the code ignores it.
- Timestamps, `toISOString` and the `results.timestamp` field are left out. Times are integers of milliseconds.
- The day start of the daily cap is a parameter, and one value serves a whole sweep.
- Each alert's time is the dispatch time `now`, not one clock reading per saved alert.
- The `SIMULATION` environment variable becomes the `simulation` field of the dispatch configuration.
- Pipeline.IsObjectIdString: `ObjectId.isValid` is modelled as the 24-hex-digit form only. The 12-byte string form is left out.
- Pipeline.TimeWindow: windows are integers. A fractional `timeWindowHrs` is not modelled.
- Pipeline.RiskEventFor: `sourceComputationId` is the input record's id, not the Output document's own `_id`. Output documents carry no id of their own in this model.
- Pipeline.Stage4: a failed save is reported as "RiskEvent validation failed". The validator's exact message is not modelled.
- Pipeline.StageOneSeesResolvedRecord: with duplicate parcel names, stage 1 (which looks the parcel up again by name) may see another record. The lemma covers only unique names.
- Mangrove.ToLower folds ASCII letters only. `toLowerCase` on other scripts does not matter for the word "yes".
- Js.Round rounds exact reals half up. Binary floating-point error at halves is not modelled.
- Mangrove.Prefix: cuts at 100 Unicode scalar values, while `substring` counts UTF-16 code units. A reply with characters outside the Basic Multilingual Plane is cut at a different place.
- Mangrove.UnitScore: a parsed score is either falsy or truthy with the number `Number(...)` gives it. Objects and arrays as scores are not modelled apart from that.
- Mangrove.NormalizeVision: the `JSON.stringify` of a non-string analysis is not modelled. The analysis is a string.
- Schema validators other than those of `RiskEvent` (required fields, score range, languages) and `User` (language) are left out.
- Recency.Take: a limit of 0 means no limit, as MongoDB's `limit(0)` does. Negative limits are left out.
- Alerts.GetUserAlerts: the default limit of 50 is not modelled; callers pass the limit.
- Recency.SortByRecency: events with equal times keep store order. MongoDB does not promise any order for ties.
- Routes, the front end, `config.js`, `connectDB` and the remaining library files are not part of this model.
