/**
 * Alert dispatch (BACKEND/src/lib/alertGenerator.js): turn a Yellow or Red
 * risk event into one localised user alert per active subscription of its
 * parcel, subject to a throttle, a daily cap and a user lookup; escalate Red
 * alerts to email; sweep the last hour's source events; and answer a user's
 * inbox query.
 */
module Alerts {
  import opened Js
  import opened Scoring
  import opened Records
  import opened I18n
  import opened Recency

  // ---------------------------------------------------------------------------
  // Configuration and shapes
  // ---------------------------------------------------------------------------

  /** The throttle window in hours, the per-user daily cap and whether messages are marked as simulated. */
  datatype DispatchConfig = DispatchConfig(cooldownHours: nat, maxAlertsPerDay: nat, simulation: bool)

  /** The values the module sets: no cooldown, a cap of 999, and the SIMULATION environment flag. */
  function SourceConfig(simulation: bool): (c: DispatchConfig)
    ensures c.cooldownHours == 0 && c.maxAlertsPerDay == 999 && c.simulation == simulation
  {
    DispatchConfig(0, 999, simulation)
  }

  const HourMs: int := 3600000

  /** The risk event handed to dispatch; its time window may be missing. */
  datatype RiskInfo = RiskInfo(parcelId: string, location: string, riskScore: int, band: Band, why: string, timeWindowHrs: Option<int>)

  /** The destructuring default `timeWindowHrs = 12`. */
  function Hours(info: RiskInfo): (h: int)
    ensures info.timeWindowHrs.Some? ==> h == info.timeWindowHrs.value
    ensures info.timeWindowHrs.None? ==> h == 12
  {
    if info.timeWindowHrs.Some? then info.timeWindowHrs.value else 12
  }

  /** What the RiskEvent schema needs from the risk event for a user alert built from it to save. */
  predicate InfoValid(info: RiskInfo)
  {
    info.parcelId != "" && info.location != "" && info.why != "" && 0 <= info.riskScore <= 100
  }

  /** One generated alert as returned to the caller; `alertId` is the stored alert's position in the store. */
  datatype Alert = Alert(alertId: nat, userId: string, parcelId: string, location: string, band: Band,
                         riskScore: int, smsShort: string, dashboard: string, language: string)

  // ---------------------------------------------------------------------------
  // Throttle
  // ---------------------------------------------------------------------------

  predicate SameRecent(e: RiskEvent, parcelId: string, band: Band, since: int)
  {
    e.parcelId == parcelId && e.band == band && e.generatedAt >= since
  }

  /** Some stored event, source or user alert, has this parcel and band and is no older than `since`. */
  predicate Throttled(events: seq<RiskEvent>, parcelId: string, band: Band, since: int)
  {
    exists i | 0 <= i < |events| :: SameRecent(events[i], parcelId, band, since)
  }

  /** The start of the throttle window; with no cooldown it is `now` itself. */
  function CooldownStart(cfg: DispatchConfig, now: int): (since: int)
    ensures since <= now
    ensures cfg.cooldownHours == 0 ==> since == now
  {
    now - cfg.cooldownHours * HourMs
  }

  /** `shouldThrottleAlert`. */
  method ShouldThrottleAlert(db: Store, parcelId: string, band: Band, since: int) returns (throttled: bool)
    ensures throttled <==> Throttled(db.events, parcelId, band, since)
  {
    throttled := false;
    var i := 0;
    while i < |db.events|
      invariant 0 <= i <= |db.events|
      invariant throttled <==> exists j | 0 <= j < i :: SameRecent(db.events[j], parcelId, band, since)
    {
      if SameRecent(db.events[i], parcelId, band, since) {
        throttled := true;
      }
      i := i + 1;
    }
  }

  // ---------------------------------------------------------------------------
  // Subscriptions, users and the daily cap
  // ---------------------------------------------------------------------------

  /** `Subscription.find({ parcelId, isActive: true })`, in store order. */
  function ActiveFor(subs: seq<Subscription>, parcelId: string): (r: seq<Subscription>)
    ensures forall k :: 0 <= k < |r| ==> r[k] in subs && r[k].parcelId == parcelId && r[k].isActive
    ensures forall s :: s in subs && s.parcelId == parcelId && s.isActive ==> s in r
    ensures IsSubsequence(r, subs) && |r| <= |subs|
  {
    if subs == [] then []
    else
      var s := subs[|subs| - 1];
      var prefix := subs[..|subs| - 1];
      assert subs == prefix + [s];
      var rest := ActiveFor(prefix, parcelId);
      if s.parcelId == parcelId && s.isActive then
        SubsequenceExtend(rest, prefix, s);
        rest + [s]
      else
        SubsequenceSkip(rest, prefix, s);
        rest
  }

  /** `Subscription.find({ userId, isActive: true })`, in store order. */
  function ActiveOf(subs: seq<Subscription>, userId: string): (r: seq<Subscription>)
    ensures forall k :: 0 <= k < |r| ==> r[k] in subs && r[k].userId == userId && r[k].isActive
    ensures forall s :: s in subs && s.userId == userId && s.isActive ==> s in r
    ensures IsSubsequence(r, subs)
  {
    if subs == [] then []
    else
      var s := subs[|subs| - 1];
      var prefix := subs[..|subs| - 1];
      assert subs == prefix + [s];
      var rest := ActiveOf(prefix, userId);
      if s.userId == userId && s.isActive then
        SubsequenceExtend(rest, prefix, s);
        rest + [s]
      else
        SubsequenceSkip(rest, prefix, s);
        rest
  }

  function ParcelIds(subs: seq<Subscription>): (ps: seq<string>)
    ensures |ps| == |subs|
    ensures forall k :: 0 <= k < |subs| ==> ps[k] == subs[k].parcelId
  {
    seq(|subs|, k requires 0 <= k < |subs| => subs[k].parcelId)
  }

  function Locations(subs: seq<Subscription>): (ls: seq<string>)
    ensures |ls| == |subs|
    ensures forall k :: 0 <= k < |subs| ==> ls[k] == subs[k].location
  {
    seq(|subs|, k requires 0 <= k < |subs| => subs[k].location)
  }

  /** An event the daily cap counts: for one of the parcels, since the start of the day, addressed to people. */
  predicate CountedToday(e: RiskEvent, parcelIds: seq<string>, dayStart: int)
  {
    e.parcelId in parcelIds && e.generatedAt >= dayStart && "people" in e.audience
  }

  /** `RiskEvent.countDocuments(...)` for the cap. */
  function CountToday(events: seq<RiskEvent>, parcelIds: seq<string>, dayStart: int): (n: nat)
    ensures n <= |events|
  {
    if events == [] then 0
    else CountToday(events[..|events| - 1], parcelIds, dayStart)
         + (if CountedToday(events[|events| - 1], parcelIds, dayStart) then 1 else 0)
  }

  /**
   * The cap as written: it counts every people-facing event of any parcel the
   * user actively follows, whoever it was for, and a user with no active
   * subscription is never capped.
   */
  predicate CapExceeded(subs: seq<Subscription>, events: seq<RiskEvent>, userId: string, maxAlerts: nat, dayStart: int)
  {
    var parcels := ParcelIds(ActiveOf(subs, userId));
    |parcels| > 0 && CountToday(events, parcels, dayStart) >= maxAlerts
  }

  /** Appending events never lowers the day's count. */
  lemma {:induction false} CountTodayGrows(events: seq<RiskEvent>, more: seq<RiskEvent>, parcelIds: seq<string>, dayStart: int)
    ensures CountToday(events + more, parcelIds, dayStart) >= CountToday(events, parcelIds, dayStart)
    decreases |more|
  {
    if more != [] {
      var shorter := more[..|more| - 1];
      CountTodayGrows(events, shorter, parcelIds, dayStart);
      assert (events + more)[..|events + more| - 1] == events + shorter;
    } else {
      assert events + more == events;
    }
  }

  /** `hasExceededDailyCap`. */
  method HasExceededDailyCap(db: Store, userId: string, maxAlerts: nat, dayStart: int) returns (exceeded: bool)
    ensures exceeded <==> CapExceeded(db.subscriptions, db.events, userId, maxAlerts, dayStart)
  {
    var parcels := ParcelIds(ActiveOf(db.subscriptions, userId));
    if |parcels| == 0 {
      return false;
    }
    var count := 0;
    var i := 0;
    while i < |db.events|
      invariant 0 <= i <= |db.events|
      invariant count == CountToday(db.events[..i], parcels, dayStart)
    {
      assert db.events[..i + 1][..i] == db.events[..i];
      if CountedToday(db.events[i], parcels, dayStart) {
        count := count + 1;
      }
      i := i + 1;
    }
    assert db.events[..i] == db.events;
    exceeded := count >= maxAlerts;
  }

  /** `User.findOne({ userId })`. */
  function FindUser(users: seq<User>, userId: string): (r: Option<User>)
    ensures r.Some? ==> r.value in users && r.value.userId == userId
    ensures r.None? ==> forall k :: 0 <= k < |users| ==> users[k].userId != userId
  {
    if users == [] then None
    else if users[0].userId == userId then Some(users[0])
    else FindUser(users[1..], userId)
  }

  // ---------------------------------------------------------------------------
  // The fan-out, as a specification
  // ---------------------------------------------------------------------------

  /** The two texts of a user alert. */
  datatype Wording = Wording(sms: string, dashboard: string)

  /**
   * The wording of an alert about `info` for each language: the localised
   * SMS and the English dashboard line.
   */
  function WordingFor(info: RiskInfo, cfg: DispatchConfig): string -> Wording
  {
    language => Wording(GenerateSMSMessage(language, info.band, info.location, Hours(info), info.why, cfg.simulation),
                        GenerateDashboardMessage(info.band, info.riskScore, info.location, Hours(info), info.why))
  }

  /** Both texts are non-empty for every language a user may have. */
  ghost predicate Legible(wording: string -> Wording)
  {
    forall language :: SupportedLanguage(language) ==> wording(language).sms != "" && wording(language).dashboard != ""
  }

  lemma WordingIsLegible(info: RiskInfo, cfg: DispatchConfig)
    ensures Legible(WordingFor(info, cfg))
  {
  }

  /** The alert reported for `userId`, whose language is `language`. */
  function AlertFor(alertId: nat, info: RiskInfo, userId: string, language: string, w: Wording): Alert
  {
    Alert(alertId, userId, info.parcelId, info.location, info.band, info.riskScore, w.sms, w.dashboard, language)
  }

  /** The user alert stored for an alert, at time `now`. */
  function EventOf(a: Alert, info: RiskInfo, now: int): RiskEvent
  {
    RiskEvent(None, a.parcelId, a.location, a.riskScore, a.band, info.why, Hours(info), ["people"],
              a.smsShort, a.dashboard, now, Some(Personalization(a.userId, a.language)))
  }

  /** A user alert with legible wording saves exactly when the risk event is valid (for a language the schema admits). */
  lemma AlertEventSaves(alertId: nat, info: RiskInfo, userId: string, language: string, wording: string -> Wording, now: int)
    requires Legible(wording) && SupportedLanguage(language)
    ensures SchemaValid(EventOf(AlertFor(alertId, info, userId, language, wording(language)), info, now)) <==> InfoValid(info)
  {
  }

  /** The store's events, the alerts so far, and for each alert whether an email was attempted. */
  datatype Fan = Fan(events: seq<RiskEvent>, alerts: seq<Alert>, emailed: seq<bool>)

  /** One iteration of the loop: skip a capped or unknown user, otherwise store, escalate and report one alert. */
  function Visit(f: Fan, info: RiskInfo, wording: string -> Wording, sub: Subscription, subs: seq<Subscription>,
                 users: seq<User>, cfg: DispatchConfig, now: int, dayStart: int): Fan
  {
    if CapExceeded(subs, f.events, sub.userId, cfg.maxAlertsPerDay, dayStart) then f
    else
      var user := FindUser(users, sub.userId);
      if user.None? then f
      else
        var a := AlertFor(|f.events|, info, sub.userId, user.value.language, wording(user.value.language));
        Fan(f.events + [EventOf(a, info, now)], f.alerts + [a], f.emailed + [info.band == Red && user.value.email != ""])
  }

  /** The loop over `targets`, in order. */
  function FanOut(f: Fan, info: RiskInfo, wording: string -> Wording, targets: seq<Subscription>, subs: seq<Subscription>,
                  users: seq<User>, cfg: DispatchConfig, now: int, dayStart: int): Fan
  {
    if targets == [] then f
    else Visit(FanOut(f, info, wording, targets[..|targets| - 1], subs, users, cfg, now, dayStart),
               info, wording, targets[|targets| - 1], subs, users, cfg, now, dayStart)
  }

  /** `generateAlertsForRisk` on a store whose events are `events`, at time `now`, with the texts `wording` gives. */
  function DispatchWith(events: seq<RiskEvent>, subs: seq<Subscription>, users: seq<User>, info: RiskInfo,
                        wording: string -> Wording, cfg: DispatchConfig, now: int, dayStart: int): Fan
  {
    if info.band == Green then Fan(events, [], [])
    else if Throttled(events, info.parcelId, info.band, CooldownStart(cfg, now)) then Fan(events, [], [])
    else FanOut(Fan(events, [], []), info, wording, ActiveFor(subs, info.parcelId), subs, users, cfg, now, dayStart)
  }

  /** `generateAlertsForRisk` with the localised texts. */
  function Dispatch(events: seq<RiskEvent>, subs: seq<Subscription>, users: seq<User>, info: RiskInfo,
                    cfg: DispatchConfig, now: int, dayStart: int): Fan
  {
    DispatchWith(events, subs, users, info, WordingFor(info, cfg), cfg, now, dayStart)
  }

  // ---------------------------------------------------------------------------
  // Properties of the fan-out
  // ---------------------------------------------------------------------------

  /**
   * The k-th alert was stored right after the events that were there before,
   * as the user alert of a known user in that user's wording; an email was
   * attempted for it exactly when the band is Red and the user has an address.
   */
  predicate Stores(f: Fan, base: seq<RiskEvent>, k: nat, info: RiskInfo, wording: string -> Wording, users: seq<User>, now: int)
    requires k < |f.alerts| && |base| + k < |f.events| && k < |f.emailed|
  {
    var a := f.alerts[k];
    var user := FindUser(users, a.userId);
    && user.Some?
    && a == AlertFor(|base| + k, info, a.userId, user.value.language, wording(user.value.language))
    && f.events[|base| + k] == EventOf(a, info, now)
    && (f.emailed[k] <==> info.band == Red && user.value.email != "")
  }

  /** The events before dispatch are kept, and each new event is one reported alert. */
  predicate Recorded(f: Fan, base: seq<RiskEvent>, info: RiskInfo, wording: string -> Wording, users: seq<User>, now: int)
  {
    && |base| <= |f.events| && f.events[..|base|] == base
    && |f.alerts| == |f.events| - |base| && |f.emailed| == |f.alerts|
    && forall k :: 0 <= k < |f.alerts| ==> Stores(f, base, k, info, wording, users, now)
  }

  lemma {:induction false} VisitRecords(f: Fan, base: seq<RiskEvent>, info: RiskInfo, wording: string -> Wording, sub: Subscription,
                                        subs: seq<Subscription>, users: seq<User>, cfg: DispatchConfig, now: int, dayStart: int)
    requires Recorded(f, base, info, wording, users, now)
    ensures Recorded(Visit(f, info, wording, sub, subs, users, cfg, now, dayStart), base, info, wording, users, now)
  {
    var g := Visit(f, info, wording, sub, subs, users, cfg, now, dayStart);
    if g != f {
      assert g.events[..|base|] == f.events[..|base|];
      forall k | 0 <= k < |g.alerts|
        ensures Stores(g, base, k, info, wording, users, now)
      {
        if k < |f.alerts| {
          assert Stores(f, base, k, info, wording, users, now);
          assert g.alerts[k] == f.alerts[k] && g.emailed[k] == f.emailed[k];
          assert g.events[|base| + k] == f.events[|base| + k];
        }
      }
    }
  }

  /** Every fan-out records its alerts faithfully in the store. */
  lemma {:induction false} FanOutRecords(base: seq<RiskEvent>, info: RiskInfo, wording: string -> Wording, targets: seq<Subscription>,
                                         subs: seq<Subscription>, users: seq<User>, cfg: DispatchConfig, now: int, dayStart: int)
    ensures Recorded(FanOut(Fan(base, [], []), info, wording, targets, subs, users, cfg, now, dayStart), base, info, wording, users, now)
    decreases |targets|
  {
    if targets == [] {
      assert base[..|base|] == base;
    } else {
      var prefix := targets[..|targets| - 1];
      FanOutRecords(base, info, wording, prefix, subs, users, cfg, now, dayStart);
      VisitRecords(FanOut(Fan(base, [], []), info, wording, prefix, subs, users, cfg, now, dayStart),
                   base, info, wording, targets[|targets| - 1], subs, users, cfg, now, dayStart);
    }
  }

  lemma DispatchRecords(events: seq<RiskEvent>, subs: seq<Subscription>, users: seq<User>, info: RiskInfo,
                        wording: string -> Wording, cfg: DispatchConfig, now: int, dayStart: int)
    ensures Recorded(DispatchWith(events, subs, users, info, wording, cfg, now, dayStart), events, info, wording, users, now)
  {
    if info.band == Green || Throttled(events, info.parcelId, info.band, CooldownStart(cfg, now)) {
      assert events[..|events|] == events;
    } else {
      FanOutRecords(events, info, wording, ActiveFor(subs, info.parcelId), subs, users, cfg, now, dayStart);
    }
  }

  /** A Green event produces nothing and writes nothing. */
  lemma GreenIsSilent(events: seq<RiskEvent>, subs: seq<Subscription>, users: seq<User>, info: RiskInfo,
                      cfg: DispatchConfig, now: int, dayStart: int)
    requires info.band == Green
    ensures Dispatch(events, subs, users, info, cfg, now, dayStart) == Fan(events, [], [])
  {
  }

  /** The stored event of the k-th alert of a fan-out, in terms of the wording. */
  lemma {:induction false} FanOutStoresAlert(base: seq<RiskEvent>, info: RiskInfo, wording: string -> Wording, targets: seq<Subscription>,
                                             subs: seq<Subscription>, users: seq<User>, cfg: DispatchConfig, now: int, dayStart: int, k: nat)
    requires k < |FanOut(Fan(base, [], []), info, wording, targets, subs, users, cfg, now, dayStart).alerts|
    ensures var f := FanOut(Fan(base, [], []), info, wording, targets, subs, users, cfg, now, dayStart);
            var a := f.alerts[k];
            && |base| + k < |f.events| && k < |f.emailed|
            && FindUser(users, a.userId).Some?
            && a == AlertFor(|base| + k, info, a.userId, FindUser(users, a.userId).value.language, wording(a.language))
            && f.events[|base| + k] == EventOf(a, info, now)
            && (f.emailed[k] <==> info.band == Red && FindUser(users, a.userId).value.email != "")
  {
    FanOutRecords(base, info, wording, targets, subs, users, cfg, now, dayStart);
    var f := FanOut(Fan(base, [], []), info, wording, targets, subs, users, cfg, now, dayStart);
    assert Stores(f, base, k, info, wording, users, now);
  }

  /** The wording of a dispatch is the localised SMS and the dashboard line. */
  lemma WordingOf(info: RiskInfo, cfg: DispatchConfig, language: string)
    ensures WordingFor(info, cfg)(language).sms == GenerateSMSMessage(language, info.band, info.location, Hours(info), info.why, cfg.simulation)
    ensures WordingFor(info, cfg)(language).dashboard == GenerateDashboardMessage(info.band, info.riskScore, info.location, Hours(info), info.why)
  {
  }

  /**
   * Each alert is stored with the risk event's parcel, location, score, band,
   * reason and window, addressed to people, for the alert's user in that
   * user's language, with the texts the alert reports.
   */
  lemma {:induction false} AlertsCopyTheEvent(events: seq<RiskEvent>, subs: seq<Subscription>, users: seq<User>, info: RiskInfo,
                                              cfg: DispatchConfig, now: int, dayStart: int, k: nat)
    requires k < |Dispatch(events, subs, users, info, cfg, now, dayStart).alerts|
    ensures var d := Dispatch(events, subs, users, info, cfg, now, dayStart);
            var a := d.alerts[k];
            && a.alertId == |events| + k < |d.events|
            && FindUser(users, a.userId).Some? && a.language == FindUser(users, a.userId).value.language
            && a.parcelId == info.parcelId && a.location == info.location && a.riskScore == info.riskScore && a.band == info.band
    ensures var d := Dispatch(events, subs, users, info, cfg, now, dayStart);
            var a := d.alerts[k];
            var e := d.events[|events| + k];
            && e.parcelId == info.parcelId && e.location == info.location && e.riskScore == info.riskScore
            && e.band == info.band && e.why == info.why && e.timeWindowHrs == Hours(info)
            && e.audience == ["people"] && e.generatedAt == now
            && e.personal == Some(Personalization(a.userId, a.language))
            && e.smsShort == a.smsShort && e.dashboard == a.dashboard
  {
    var d := Dispatch(events, subs, users, info, cfg, now, dayStart);
    if info.band != Green && !Throttled(events, info.parcelId, info.band, CooldownStart(cfg, now)) {
      var targets := ActiveFor(subs, info.parcelId);
      assert d == FanOut(Fan(events, [], []), info, WordingFor(info, cfg), targets, subs, users, cfg, now, dayStart);
      FanOutStoresAlert(events, info, WordingFor(info, cfg), targets, subs, users, cfg, now, dayStart, k);
      assert d.events[|events| + k] == EventOf(d.alerts[k], info, now);
    }
  }

  /** Each alert carries the SMS localised to its user's language and the English dashboard line. */
  lemma {:induction false} AlertsAreLocalised(events: seq<RiskEvent>, subs: seq<Subscription>, users: seq<User>, info: RiskInfo,
                                              cfg: DispatchConfig, now: int, dayStart: int, k: nat)
    requires k < |Dispatch(events, subs, users, info, cfg, now, dayStart).alerts|
    ensures var a := Dispatch(events, subs, users, info, cfg, now, dayStart).alerts[k];
            && a.smsShort == GenerateSMSMessage(a.language, info.band, info.location, Hours(info), info.why, cfg.simulation)
            && a.dashboard == GenerateDashboardMessage(info.band, info.riskScore, info.location, Hours(info), info.why)
  {
    var d := Dispatch(events, subs, users, info, cfg, now, dayStart);
    if info.band != Green && !Throttled(events, info.parcelId, info.band, CooldownStart(cfg, now)) {
      var wording := WordingFor(info, cfg);
      var targets := ActiveFor(subs, info.parcelId);
      assert d == FanOut(Fan(events, [], []), info, wording, targets, subs, users, cfg, now, dayStart);
      FanOutStoresAlert(events, info, wording, targets, subs, users, cfg, now, dayStart, k);
      var a := d.alerts[k];
      assert a.smsShort == wording(a.language).sms && a.dashboard == wording(a.language).dashboard;
      WordingOf(info, cfg, a.language);
    }
  }

  lemma {:induction false} EmailOnlyForRed(events: seq<RiskEvent>, subs: seq<Subscription>, users: seq<User>, info: RiskInfo,
                                           cfg: DispatchConfig, now: int, dayStart: int, k: nat)
    requires k < |Dispatch(events, subs, users, info, cfg, now, dayStart).alerts|
    ensures var d := Dispatch(events, subs, users, info, cfg, now, dayStart);
            && k < |d.emailed|
            && FindUser(users, d.alerts[k].userId).Some?
            && (d.emailed[k] <==> info.band == Red && FindUser(users, d.alerts[k].userId).value.email != "")
  {
    if info.band != Green && !Throttled(events, info.parcelId, info.band, CooldownStart(cfg, now)) {
      var targets := ActiveFor(subs, info.parcelId);
      assert Dispatch(events, subs, users, info, cfg, now, dayStart)
             == FanOut(Fan(events, [], []), info, WordingFor(info, cfg), targets, subs, users, cfg, now, dayStart);
      FanOutStoresAlert(events, info, WordingFor(info, cfg), targets, subs, users, cfg, now, dayStart, k);
    }
  }

  /** `xs` is `ys` with some elements left out, the rest in the same order. */
  predicate IsSubsequence<T(==)>(xs: seq<T>, ys: seq<T>)
    decreases |ys|
  {
    xs == [] ||
    (ys != [] && (IsSubsequence(xs, ys[..|ys| - 1]) ||
                  (xs[|xs| - 1] == ys[|ys| - 1] && IsSubsequence(xs[..|xs| - 1], ys[..|ys| - 1]))))
  }

  lemma {:induction false} SubsequenceIsNoLonger<T>(xs: seq<T>, ys: seq<T>)
    requires IsSubsequence(xs, ys)
    ensures |xs| <= |ys|
    decreases |ys|
  {
    if xs != [] {
      if IsSubsequence(xs, ys[..|ys| - 1]) {
        SubsequenceIsNoLonger(xs, ys[..|ys| - 1]);
      } else {
        SubsequenceIsNoLonger(xs[..|xs| - 1], ys[..|ys| - 1]);
      }
    }
  }

  /** Extending both sequences by an equal last element keeps the relation. */
  lemma SubsequenceExtend<T>(xs: seq<T>, ys: seq<T>, x: T)
    requires IsSubsequence(xs, ys)
    ensures IsSubsequence(xs + [x], ys + [x])
  {
    assert (xs + [x])[..|xs|] == xs;
    assert (ys + [x])[..|ys|] == ys;
  }

  /** Extending only the longer sequence keeps the relation. */
  lemma SubsequenceSkip<T>(xs: seq<T>, ys: seq<T>, y: T)
    requires IsSubsequence(xs, ys)
    ensures IsSubsequence(xs, ys + [y])
  {
    assert (ys + [y])[..|ys|] == ys;
  }

  function AlertUsers(alerts: seq<Alert>): (us: seq<string>)
    ensures |us| == |alerts|
    ensures forall k :: 0 <= k < |alerts| ==> us[k] == alerts[k].userId
  {
    seq(|alerts|, k requires 0 <= k < |alerts| => alerts[k].userId)
  }

  function Subscribers(subs: seq<Subscription>): (us: seq<string>)
    ensures |us| == |subs|
    ensures forall k :: 0 <= k < |subs| ==> us[k] == subs[k].userId
  {
    seq(|subs|, k requires 0 <= k < |subs| => subs[k].userId)
  }

  /** One iteration adds nothing, or exactly one alert for the subscription's user. */
  lemma VisitShape(f: Fan, info: RiskInfo, wording: string -> Wording, sub: Subscription, subs: seq<Subscription>,
                   users: seq<User>, cfg: DispatchConfig, now: int, dayStart: int)
    ensures var g := Visit(f, info, wording, sub, subs, users, cfg, now, dayStart);
            || g.alerts == f.alerts
            || (g.alerts == f.alerts + [g.alerts[|f.alerts|]] && g.alerts[|f.alerts|].userId == sub.userId)
  {
  }

  /** The alerts' users are the targets' users with some left out, in target order: at most one alert per subscription. */
  lemma {:induction false} FanOutFollowsTargets(base: seq<RiskEvent>, info: RiskInfo, wording: string -> Wording, targets: seq<Subscription>,
                                                subs: seq<Subscription>, users: seq<User>, cfg: DispatchConfig, now: int, dayStart: int)
    ensures var f := FanOut(Fan(base, [], []), info, wording, targets, subs, users, cfg, now, dayStart);
            IsSubsequence(AlertUsers(f.alerts), Subscribers(targets)) && |f.alerts| <= |targets|
    decreases |targets|
  {
    var f := FanOut(Fan(base, [], []), info, wording, targets, subs, users, cfg, now, dayStart);
    if targets != [] {
      var prefix := targets[..|targets| - 1];
      var last := targets[|targets| - 1];
      var p := FanOut(Fan(base, [], []), info, wording, prefix, subs, users, cfg, now, dayStart);
      FanOutFollowsTargets(base, info, wording, prefix, subs, users, cfg, now, dayStart);
      FanOutStepShape(base, info, wording, targets, subs, users, cfg, now, dayStart);
      assert targets == prefix + [last];
      FollowsStep(p.alerts, f.alerts, prefix, last);
    }
    SubsequenceIsNoLonger(AlertUsers(f.alerts), Subscribers(targets));
  }

  /** The last target of a fan-out adds nothing, or exactly one alert for its user. */
  lemma FanOutStepShape(base: seq<RiskEvent>, info: RiskInfo, wording: string -> Wording, targets: seq<Subscription>,
                        subs: seq<Subscription>, users: seq<User>, cfg: DispatchConfig, now: int, dayStart: int)
    requires targets != []
    ensures var f := FanOut(Fan(base, [], []), info, wording, targets, subs, users, cfg, now, dayStart);
            var p := FanOut(Fan(base, [], []), info, wording, targets[..|targets| - 1], subs, users, cfg, now, dayStart);
            || f.alerts == p.alerts
            || (|f.alerts| > |p.alerts| && f.alerts == p.alerts + [f.alerts[|p.alerts|]]
                && f.alerts[|p.alerts|].userId == targets[|targets| - 1].userId)
  {
    var p := FanOut(Fan(base, [], []), info, wording, targets[..|targets| - 1], subs, users, cfg, now, dayStart);
    VisitShape(p, info, wording, targets[|targets| - 1], subs, users, cfg, now, dayStart);
  }

  /** A step that adds nothing, or one alert for the next target's user, keeps the alerts' users a subsequence of the targets'. */
  lemma FollowsStep(before: seq<Alert>, after: seq<Alert>, prefix: seq<Subscription>, last: Subscription)
    requires IsSubsequence(AlertUsers(before), Subscribers(prefix))
    requires after == before || (|after| > |before| && after == before + [after[|before|]] && after[|before|].userId == last.userId)
    ensures IsSubsequence(AlertUsers(after), Subscribers(prefix + [last]))
  {
    assert Subscribers(prefix + [last]) == Subscribers(prefix) + [last.userId];
    if after == before {
      SubsequenceSkip(AlertUsers(before), Subscribers(prefix), last.userId);
    } else {
      assert AlertUsers(after) == AlertUsers(before) + [last.userId];
      SubsequenceExtend(AlertUsers(before), Subscribers(prefix), last.userId);
    }
  }

  /** Every alert goes to a subscriber with an active subscription to the event's parcel, at most one per subscription. */
  lemma {:induction false} AlertsFollowSubscriptions(events: seq<RiskEvent>, subs: seq<Subscription>, users: seq<User>, info: RiskInfo,
                                                     cfg: DispatchConfig, now: int, dayStart: int)
    ensures var d := Dispatch(events, subs, users, info, cfg, now, dayStart);
            var targets := ActiveFor(subs, info.parcelId);
            IsSubsequence(AlertUsers(d.alerts), Subscribers(targets)) && |d.alerts| <= |targets|
  {
    var targets := ActiveFor(subs, info.parcelId);
    if info.band != Green && !Throttled(events, info.parcelId, info.band, CooldownStart(cfg, now)) {
      FanOutFollowsTargets(events, info, WordingFor(info, cfg), targets, subs, users, cfg, now, dayStart);
    }
  }

  /** The fan-out only ever adds events. */
  lemma {:induction false} FanOutExtends(base: seq<RiskEvent>, info: RiskInfo, wording: string -> Wording, targets: seq<Subscription>,
                                         subs: seq<Subscription>, users: seq<User>, cfg: DispatchConfig, now: int, dayStart: int)
    ensures var f := FanOut(Fan(base, [], []), info, wording, targets, subs, users, cfg, now, dayStart);
            |base| <= |f.events| && f.events == base + f.events[|base|..]
  {
    FanOutRecords(base, info, wording, targets, subs, users, cfg, now, dayStart);
    var f := FanOut(Fan(base, [], []), info, wording, targets, subs, users, cfg, now, dayStart);
    assert f.events == f.events[..|base|] + f.events[|base|..];
  }

  /** A user already at the daily cap when dispatch starts gets no alert from it. */
  lemma {:induction false} CappedUserGetsNothing(base: seq<RiskEvent>, info: RiskInfo, wording: string -> Wording, targets: seq<Subscription>,
                                                 subs: seq<Subscription>, users: seq<User>, cfg: DispatchConfig, now: int, dayStart: int,
                                                 userId: string)
    requires CapExceeded(subs, base, userId, cfg.maxAlertsPerDay, dayStart)
    ensures var f := FanOut(Fan(base, [], []), info, wording, targets, subs, users, cfg, now, dayStart);
            forall k :: 0 <= k < |f.alerts| ==> f.alerts[k].userId != userId
    decreases |targets|
  {
    if targets != [] {
      var prefix := targets[..|targets| - 1];
      var p := FanOut(Fan(base, [], []), info, wording, prefix, subs, users, cfg, now, dayStart);
      CappedUserGetsNothing(base, info, wording, prefix, subs, users, cfg, now, dayStart, userId);
      FanOutExtends(base, info, wording, prefix, subs, users, cfg, now, dayStart);
      CountTodayGrows(base, p.events[|base|..], ParcelIds(ActiveOf(subs, userId)), dayStart);
      assert CapExceeded(subs, p.events, userId, cfg.maxAlertsPerDay, dayStart);
    }
  }

  /** A user at the daily cap when a risk event is dispatched gets no alert from it. */
  lemma CappedUserIsSkipped(events: seq<RiskEvent>, subs: seq<Subscription>, users: seq<User>, info: RiskInfo,
                            cfg: DispatchConfig, now: int, dayStart: int, userId: string)
    requires CapExceeded(subs, events, userId, cfg.maxAlertsPerDay, dayStart)
    ensures var d := Dispatch(events, subs, users, info, cfg, now, dayStart);
            forall k :: 0 <= k < |d.alerts| ==> d.alerts[k].userId != userId
  {
    if info.band != Green && !Throttled(events, info.parcelId, info.band, CooldownStart(cfg, now)) {
      assert Dispatch(events, subs, users, info, cfg, now, dayStart)
             == FanOut(Fan(events, [], []), info, WordingFor(info, cfg), ActiveFor(subs, info.parcelId), subs, users, cfg, now, dayStart);
      CappedUserGetsNothing(events, info, WordingFor(info, cfg), ActiveFor(subs, info.parcelId), subs, users, cfg, now, dayStart, userId);
    }
  }

  /**
   * Dispatching the same event again while its first alerts are inside the
   * cooldown window yields nothing: the alerts just stored throttle it.
   */
  lemma {:induction false} RepeatIsThrottled(events: seq<RiskEvent>, subs: seq<Subscription>, users: seq<User>, info: RiskInfo,
                                             cfg: DispatchConfig, now: int, dayStart: int, later: int)
    requires Dispatch(events, subs, users, info, cfg, now, dayStart).alerts != []
    requires CooldownStart(cfg, later) <= now
    ensures var d := Dispatch(events, subs, users, info, cfg, now, dayStart);
            Dispatch(d.events, subs, users, info, cfg, later, dayStart) == Fan(d.events, [], [])
  {
    var d := Dispatch(events, subs, users, info, cfg, now, dayStart);
    AlertsCopyTheEvent(events, subs, users, info, cfg, now, dayStart, 0);
    var i := d.alerts[0].alertId;
    assert SameRecent(d.events[i], info.parcelId, info.band, CooldownStart(cfg, later));
  }

  // ---------------------------------------------------------------------------
  // The dispatch method
  // ---------------------------------------------------------------------------

  /** `sendHighRiskAlert`: the transport reports success or failure and never throws; the outcome is not ours to decide. */
  method SendHighRiskAlert(user: User, info: RiskInfo) returns (success: bool)
  {
    success :| true;
  }

  /** The error a failed save of a user alert is reported with. */
  const AlertInvalid: string := "RiskEvent validation failed"

  lemma {:induction false} FanOutStep(f: Fan, info: RiskInfo, wording: string -> Wording, targets: seq<Subscription>, i: nat,
                                      subs: seq<Subscription>, users: seq<User>, cfg: DispatchConfig, now: int, dayStart: int)
    requires i < |targets|
    ensures FanOut(f, info, wording, targets[..i + 1], subs, users, cfg, now, dayStart)
            == Visit(FanOut(f, info, wording, targets[..i], subs, users, cfg, now, dayStart), info, wording, targets[i], subs, users, cfg, now, dayStart)
  {
    assert targets[..i + 1][..i] == targets[..i];
  }

  /** The alerts of a prefix of the targets are no more than those of all of them. */
  lemma {:induction false} FanOutAlertsGrow(f: Fan, info: RiskInfo, wording: string -> Wording, targets: seq<Subscription>, i: nat,
                                            subs: seq<Subscription>, users: seq<User>, cfg: DispatchConfig, now: int, dayStart: int)
    requires i <= |targets|
    ensures |FanOut(f, info, wording, targets[..i], subs, users, cfg, now, dayStart).alerts|
            <= |FanOut(f, info, wording, targets, subs, users, cfg, now, dayStart).alerts|
    decreases |targets| - i
  {
    if i < |targets| {
      FanOutAlertsGrow(f, info, wording, targets, i + 1, subs, users, cfg, now, dayStart);
      FanOutStep(f, info, wording, targets, i, subs, users, cfg, now, dayStart);
    } else {
      assert targets[..i] == targets;
    }
  }

  /** One iteration depends on the events stored so far, not on the alerts reported so far. */
  lemma VisitFrame(f: Fan, info: RiskInfo, wording: string -> Wording, sub: Subscription, subs: seq<Subscription>,
                   users: seq<User>, cfg: DispatchConfig, now: int, dayStart: int)
    ensures var g := Visit(Fan(f.events, [], []), info, wording, sub, subs, users, cfg, now, dayStart);
            Visit(f, info, wording, sub, subs, users, cfg, now, dayStart) == Fan(g.events, f.alerts + g.alerts, f.emailed + g.emailed)
  {
  }

  /**
   * The fan-out after one more target is the fan-out so far followed by that
   * target's visit; a visit that reports an alert for an event the schema
   * rejects makes the whole fan-out report one.
   */
  lemma LoopStep(f0: Fan, f: Fan, g: Fan, info: RiskInfo, wording: string -> Wording, targets: seq<Subscription>, i: nat,
                 subs: seq<Subscription>, users: seq<User>, cfg: DispatchConfig, now: int, dayStart: int)
    requires i < |targets|
    requires f == FanOut(f0, info, wording, targets[..i], subs, users, cfg, now, dayStart)
    ensures var v := Visit(Fan(f.events, [], []), info, wording, targets[i], subs, users, cfg, now, dayStart);
            && (v == g ==> Fan(g.events, f.alerts + g.alerts, f.emailed + g.emailed)
                           == FanOut(f0, info, wording, targets[..i + 1], subs, users, cfg, now, dayStart))
            && (v.alerts != [] ==> FanOut(f0, info, wording, targets, subs, users, cfg, now, dayStart).alerts != [])
  {
    FanOutStep(f0, info, wording, targets, i, subs, users, cfg, now, dayStart);
    VisitFrame(f, info, wording, targets[i], subs, users, cfg, now, dayStart);
    FanOutAlertsGrow(f0, info, wording, targets, i + 1, subs, users, cfg, now, dayStart);
    assert targets[..|targets|] == targets;
  }

  /**
   * One iteration of the loop of `generateAlertsForRisk`, for the
   * subscription `sub`; `wording` gives the alert texts for each language.
   * A risk event the schema rejects makes the save throw before anything is
   * stored.
   */
  method NotifySubscriber(db: Store, info: RiskInfo, wording: string -> Wording, sub: Subscription,
                          cfg: DispatchConfig, now: int, dayStart: int)
    returns (r: Result<seq<Alert>>, emailed: seq<bool>)
    requires db.Valid() && Legible(wording)
    modifies db
    ensures db.Valid()
    ensures db.inputs == old(db.inputs) && db.outputs == old(db.outputs)
    ensures db.subscriptions == old(db.subscriptions) && db.users == old(db.users)
    ensures var g := Visit(Fan(old(db.events), [], []), info, wording, sub, db.subscriptions, db.users, cfg, now, dayStart);
            && (r.Ok? <==> InfoValid(info) || g.alerts == [])
            && (r.Ok? ==> r.value == g.alerts && emailed == g.emailed && db.events == g.events)
            && (r.Err? ==> r.error == AlertInvalid && emailed == [] && db.events == old(db.events))
  {
    var capped := HasExceededDailyCap(db, sub.userId, cfg.maxAlertsPerDay, dayStart);
    var user := FindUser(db.users, sub.userId);
    if capped || user.None? {
      return Ok([]), [];
    }
    var u := user.value;
    var alert := AlertFor(|db.events|, info, sub.userId, u.language, wording(u.language));
    var event := EventOf(alert, info, now);
    AlertEventSaves(|db.events|, info, sub.userId, u.language, wording, now);
    if !SchemaValid(event) {
      return Err(AlertInvalid), [];
    }
    db.events := db.events + [event];
    var escalate := info.band == Red && u.email != "";
    if escalate {
      var _ := SendHighRiskAlert(u, info);
    }
    r := Ok([alert]);
    emailed := [escalate];
  }

  /** The loop of `generateAlertsForRisk` over the subscriptions `targets`; the first failed save ends it. */
  method NotifySubscribers(db: Store, info: RiskInfo, wording: string -> Wording, targets: seq<Subscription>,
                           cfg: DispatchConfig, now: int, dayStart: int)
    returns (r: Result<seq<Alert>>, emailed: seq<bool>)
    requires db.Valid() && Legible(wording)
    modifies db
    ensures db.Valid()
    ensures db.inputs == old(db.inputs) && db.outputs == old(db.outputs)
    ensures db.subscriptions == old(db.subscriptions) && db.users == old(db.users)
    ensures var d := FanOut(Fan(old(db.events), [], []), info, wording, targets, db.subscriptions, db.users, cfg, now, dayStart);
            && (r.Ok? <==> InfoValid(info) || d.alerts == [])
            && (r.Ok? ==> r.value == d.alerts && emailed == d.emailed && db.events == d.events)
            && (r.Err? ==> r.error == AlertInvalid && emailed == [] && db.events == old(db.events))
  {
    ghost var start := db.events;
    ghost var f0 := Fan(start, [], []);
    var alerts: seq<Alert> := [];
    emailed := [];
    var i := 0;
    while i < |targets|
      invariant 0 <= i <= |targets|
      invariant Fan(db.events, alerts, emailed) == FanOut(f0, info, wording, targets[..i], db.subscriptions, db.users, cfg, now, dayStart)
      invariant !InfoValid(info) ==> alerts == [] && db.events == start
      invariant db.Valid()
      invariant db.inputs == old(db.inputs) && db.outputs == old(db.outputs)
      invariant db.subscriptions == old(db.subscriptions) && db.users == old(db.users)
    {
      ghost var f := Fan(db.events, alerts, emailed);
      var one, sent := NotifySubscriber(db, info, wording, targets[i], cfg, now, dayStart);
      LoopStep(f0, f, Fan(db.events, if one.Ok? then one.value else [], sent), info, wording, targets, i,
               db.subscriptions, db.users, cfg, now, dayStart);
      if one.Err? {
        return Err(AlertInvalid), [];
      }
      alerts := alerts + one.value;
      emailed := emailed + sent;
      i := i + 1;
    }
    assert targets[..i] == targets;
    r := Ok(alerts);
  }

  /** The body of `generateAlertsForRisk`, for any legible wording. */
  method DispatchAlerts(db: Store, info: RiskInfo, wording: string -> Wording, cfg: DispatchConfig, now: int, dayStart: int)
    returns (r: Result<seq<Alert>>, emailed: seq<bool>)
    requires db.Valid() && Legible(wording)
    modifies db
    ensures db.Valid()
    ensures db.inputs == old(db.inputs) && db.outputs == old(db.outputs)
    ensures db.subscriptions == old(db.subscriptions) && db.users == old(db.users)
    ensures var d := DispatchWith(old(db.events), db.subscriptions, db.users, info, wording, cfg, now, dayStart);
            && (r.Ok? <==> InfoValid(info) || d.alerts == [])
            && (r.Ok? ==> r.value == d.alerts && emailed == d.emailed && db.events == d.events)
            && (r.Err? ==> r.error == AlertInvalid && emailed == [] && db.events == old(db.events))
  {
    if info.band == Green {
      return Ok([]), [];
    }
    var throttled := ShouldThrottleAlert(db, info.parcelId, info.band, CooldownStart(cfg, now));
    if throttled {
      return Ok([]), [];
    }
    var targets := ActiveFor(db.subscriptions, info.parcelId);
    if |targets| == 0 {
      return Ok([]), [];
    }
    r, emailed := NotifySubscribers(db, info, wording, targets, cfg, now, dayStart);
  }

  /**
   * `generateAlertsForRisk`. `now` is the clock reading for the throttle and
   * the new alerts.
   */
  method GenerateAlertsForRisk(db: Store, info: RiskInfo, cfg: DispatchConfig, now: int, dayStart: int)
    returns (r: Result<seq<Alert>>, emailed: seq<bool>)
    requires db.Valid()
    modifies db
    ensures db.Valid()
    ensures db.inputs == old(db.inputs) && db.outputs == old(db.outputs)
    ensures db.subscriptions == old(db.subscriptions) && db.users == old(db.users)
    ensures var d := Dispatch(old(db.events), db.subscriptions, db.users, info, cfg, now, dayStart);
            && (r.Ok? <==> InfoValid(info) || d.alerts == [])
            && (r.Ok? ==> r.value == d.alerts && emailed == d.emailed && db.events == d.events)
            && (r.Err? ==> r.error == AlertInvalid && emailed == [] && db.events == old(db.events))
  {
    WordingIsLegible(info, cfg);
    r, emailed := DispatchAlerts(db, info, WordingFor(info, cfg), cfg, now, dayStart);
  }

  // ---------------------------------------------------------------------------
  // The sweep over recent source events
  // ---------------------------------------------------------------------------

  /** A source computation (not a user alert) from the last hour. */
  predicate IsRecentSource(e: RiskEvent, now: int)
  {
    e.personal.None? && e.generatedAt >= now - HourMs
  }

  function RecentFilter(s: seq<Stored>, now: int): (r: seq<Stored>)
    ensures forall x :: x in r <==> x in s && IsRecentSource(x.event, now)
  {
    if s == [] then []
    else
      var last := s[|s| - 1];
      assert s == s[..|s| - 1] + [last];
      RecentFilter(s[..|s| - 1], now) + (if IsRecentSource(last.event, now) then [last] else [])
  }

  /** The sweep's query: the last hour's source events, newest first. */
  function RecentSources(events: seq<RiskEvent>, now: int): (r: seq<Stored>)
    ensures NewestFirst(r)
    ensures forall x :: x in r <==> x.id < |events| && x.event == events[x.id] && IsRecentSource(x.event, now)
  {
    var numbered := Numbered(events);
    var r := SortByRecency(RecentFilter(numbered, now));
    assert forall x :: x in r <==> x in RecentFilter(numbered, now) by {
      forall x ensures x in r <==> x in RecentFilter(numbered, now) {
        SortedMembers(RecentFilter(numbered, now), x);
      }
    }
    assert forall x :: x in numbered <==> x.id < |events| && x.event == events[x.id] by {
      forall x ensures x in numbered <==> x.id < |events| && x.event == events[x.id] {
        if x.id < |events| && x.event == events[x.id] {
          assert numbered[x.id] == x;
        }
      }
    }
    r
  }

  /** The risk event handed to dispatch for a stored source event. */
  function InfoOf(e: RiskEvent): (info: RiskInfo)
    ensures SchemaValid(e) ==> InfoValid(info)
    ensures Hours(info) == e.timeWindowHrs
  {
    RiskInfo(e.parcelId, e.location, e.riskScore, e.band, e.why, Some(e.timeWindowHrs))
  }

  /** The localised texts, for each risk event. */
  function Localise(cfg: DispatchConfig): RiskInfo -> string -> Wording
  {
    info => WordingFor(info, cfg)
  }

  /** Every risk event's wording is legible. */
  ghost predicate AllLegible(localise: RiskInfo -> string -> Wording)
  {
    forall info :: Legible(localise(info))
  }

  lemma LocaliseIsLegible(cfg: DispatchConfig)
    ensures AllLegible(Localise(cfg))
  {
    forall info ensures Legible(Localise(cfg)(info)) {
      WordingIsLegible(info, cfg);
    }
  }

  /** The store's events and the running total after dispatching `recent`, the i-th at clock reading `clock[i]`. */
  datatype SweepState = SweepState(events: seq<RiskEvent>, generated: nat)

  function SweepWith(events: seq<RiskEvent>, recent: seq<Stored>, clock: seq<int>, subs: seq<Subscription>, users: seq<User>,
                     localise: RiskInfo -> string -> Wording, cfg: DispatchConfig, dayStart: int): SweepState
    requires |clock| == |recent|
  {
    if recent == [] then SweepState(events, 0)
    else
      var n := |recent| - 1;
      var before := SweepWith(events, recent[..n], clock[..n], subs, users, localise, cfg, dayStart);
      var info := InfoOf(recent[n].event);
      var d := DispatchWith(before.events, subs, users, info, localise(info), cfg, clock[n], dayStart);
      SweepState(d.events, before.generated + |d.alerts|)
  }

  /** `processRecentRiskEvents` as a specification: dispatch each recent source in turn with the localised texts. */
  function Sweep(events: seq<RiskEvent>, recent: seq<Stored>, clock: seq<int>, subs: seq<Subscription>, users: seq<User>,
                 cfg: DispatchConfig, dayStart: int): SweepState
    requires |clock| == |recent|
  {
    SweepWith(events, recent, clock, subs, users, Localise(cfg), cfg, dayStart)
  }

  /** Dispatch only appends, one event per alert. */
  lemma DispatchExtends(events: seq<RiskEvent>, subs: seq<Subscription>, users: seq<User>, info: RiskInfo,
                        wording: string -> Wording, cfg: DispatchConfig, now: int, dayStart: int)
    ensures var d := DispatchWith(events, subs, users, info, wording, cfg, now, dayStart);
            |d.events| == |events| + |d.alerts| && d.events[..|events|] == events
  {
    DispatchRecords(events, subs, users, info, wording, cfg, now, dayStart);
  }

  lemma SweepStep(events: seq<RiskEvent>, recent: seq<Stored>, clock: seq<int>, i: nat, t: int, subs: seq<Subscription>,
                  users: seq<User>, localise: RiskInfo -> string -> Wording, cfg: DispatchConfig, dayStart: int)
    requires i < |recent| && |clock| == i
    ensures var before := SweepWith(events, recent[..i], clock, subs, users, localise, cfg, dayStart);
            var info := InfoOf(recent[i].event);
            var d := DispatchWith(before.events, subs, users, info, localise(info), cfg, t, dayStart);
            SweepWith(events, recent[..i + 1], clock + [t], subs, users, localise, cfg, dayStart)
            == SweepState(d.events, before.generated + |d.alerts|)
  {
    assert recent[..i + 1][..i] == recent[..i];
    assert (clock + [t])[..i] == clock;
  }

  /** Every alert the sweep counts is one new stored event, and the events before it are kept. */
  lemma {:induction false} SweepCountsStoredAlerts(events: seq<RiskEvent>, recent: seq<Stored>, clock: seq<int>, subs: seq<Subscription>,
                                                   users: seq<User>, cfg: DispatchConfig, dayStart: int)
    requires |clock| == |recent|
    ensures var s := Sweep(events, recent, clock, subs, users, cfg, dayStart);
            |s.events| == |events| + s.generated && s.events[..|events|] == events
  {
    SweepWithCountsStoredAlerts(events, recent, clock, subs, users, Localise(cfg), cfg, dayStart);
  }

  lemma {:induction false} SweepWithCountsStoredAlerts(events: seq<RiskEvent>, recent: seq<Stored>, clock: seq<int>, subs: seq<Subscription>,
                                                       users: seq<User>, localise: RiskInfo -> string -> Wording, cfg: DispatchConfig, dayStart: int)
    requires |clock| == |recent|
    ensures var s := SweepWith(events, recent, clock, subs, users, localise, cfg, dayStart);
            |s.events| == |events| + s.generated && s.events[..|events|] == events
    decreases |recent|
  {
    if recent != [] {
      var n := |recent| - 1;
      var before := SweepWith(events, recent[..n], clock[..n], subs, users, localise, cfg, dayStart);
      var info := InfoOf(recent[n].event);
      SweepWithCountsStoredAlerts(events, recent[..n], clock[..n], subs, users, localise, cfg, dayStart);
      DispatchExtends(before.events, subs, users, info, localise(info), cfg, clock[n], dayStart);
      var d := DispatchWith(before.events, subs, users, info, localise(info), cfg, clock[n], dayStart);
      assert d.events[..|events|] == d.events[..|before.events|][..|events|];
    }
  }

  /** In a store whose events all passed validation, every recent source is a valid risk event. */
  lemma RecentSourcesAreValid(events: seq<RiskEvent>, now: int)
    requires forall k :: 0 <= k < |events| ==> SchemaValid(events[k])
    ensures var recent := RecentSources(events, now);
            forall j :: 0 <= j < |recent| ==> InfoValid(InfoOf(recent[j].event))
  {
    var recent := RecentSources(events, now);
    forall j | 0 <= j < |recent|
      ensures InfoValid(InfoOf(recent[j].event))
    {
      assert recent[j] in recent;
    }
  }

  /** A clock reading no earlier than the previous one. */
  method ReadClock(notBefore: int) returns (t: int)
    ensures t >= notBefore
  {
    t :| t >= notBefore;
  }

  /**
   * One iteration of the loop of `processRecentRiskEvents`: read the clock,
   * then dispatch the `i`-th recent source, a valid one. `start` is the
   * store's events before the loop and `generated` the alerts counted so far.
   */
  method SweepOne(db: Store, ghost start: seq<RiskEvent>, recent: seq<Stored>, clock: seq<int>, i: nat, generated: nat,
                  localise: RiskInfo -> string -> Wording, cfg: DispatchConfig, last: int, dayStart: int)
    returns (total: nat, t: int)
    requires db.Valid() && AllLegible(localise)
    requires i < |recent| && |clock| == i && InfoValid(InfoOf(recent[i].event))
    requires SweepState(db.events, generated) == SweepWith(start, recent[..i], clock, db.subscriptions, db.users, localise, cfg, dayStart)
    modifies db
    ensures db.Valid()
    ensures db.inputs == old(db.inputs) && db.outputs == old(db.outputs)
    ensures db.subscriptions == old(db.subscriptions) && db.users == old(db.users)
    ensures last <= t
    ensures SweepState(db.events, total) == SweepWith(start, recent[..i + 1], clock + [t], db.subscriptions, db.users, localise, cfg, dayStart)
  {
    var info := InfoOf(recent[i].event);
    t := ReadClock(last);
    var alerts, _ := DispatchAlerts(db, info, localise(info), cfg, t, dayStart);
    SweepStep(start, recent, clock, i, t, db.subscriptions, db.users, localise, cfg, dayStart);
    total := generated + |alerts.value|;
  }

  /** The loop of `processRecentRiskEvents` over `recent`, for any legible wording. */
  method SweepSources(db: Store, recent: seq<Stored>, localise: RiskInfo -> string -> Wording, cfg: DispatchConfig, now: int, dayStart: int)
    returns (generated: nat, clock: seq<int>)
    requires db.Valid() && AllLegible(localise)
    requires forall j :: 0 <= j < |recent| ==> InfoValid(InfoOf(recent[j].event))
    modifies db
    ensures db.Valid()
    ensures db.inputs == old(db.inputs) && db.outputs == old(db.outputs)
    ensures db.subscriptions == old(db.subscriptions) && db.users == old(db.users)
    ensures |clock| == |recent|
    ensures forall k :: 0 <= k < |clock| ==> now <= clock[k]
    ensures forall j, k :: 0 <= j < k < |clock| ==> clock[j] <= clock[k]
    ensures SweepState(db.events, generated) == SweepWith(old(db.events), recent, clock, db.subscriptions, db.users, localise, cfg, dayStart)
  {
    ghost var start := db.events;
    generated := 0;
    clock := [];
    var last := now;
    var i := 0;
    while i < |recent|
      invariant 0 <= i <= |recent| && |clock| == i
      invariant forall k :: 0 <= k < |clock| ==> now <= clock[k] <= last
      invariant forall j, k :: 0 <= j < k < |clock| ==> clock[j] <= clock[k]
      invariant now <= last
      invariant SweepState(db.events, generated) == SweepWith(start, recent[..i], clock, db.subscriptions, db.users, localise, cfg, dayStart)
      invariant db.Valid()
      invariant db.inputs == old(db.inputs) && db.outputs == old(db.outputs)
      invariant db.subscriptions == old(db.subscriptions) && db.users == old(db.users)
    {
      var t;
      generated, t := SweepOne(db, start, recent, clock, i, generated, localise, cfg, last, dayStart);
      clock := clock + [t];
      last := t;
      i := i + 1;
    }
    assert recent[..i] == recent;
  }

  /**
   * `processRecentRiskEvents`. Each dispatch reads the clock afresh; the
   * readings are returned so that the outcome can be stated in terms of them.
   */
  method ProcessRecentRiskEvents(db: Store, cfg: DispatchConfig, now: int, dayStart: int)
    returns (processed: nat, generated: nat, clock: seq<int>)
    requires db.Valid()
    modifies db
    ensures db.Valid()
    ensures db.inputs == old(db.inputs) && db.outputs == old(db.outputs)
    ensures db.subscriptions == old(db.subscriptions) && db.users == old(db.users)
    ensures processed == |RecentSources(old(db.events), now)| == |clock|
    ensures forall k :: 0 <= k < |clock| ==> now <= clock[k]
    ensures forall j, k :: 0 <= j < k < |clock| ==> clock[j] <= clock[k]
    ensures SweepState(db.events, generated)
            == Sweep(old(db.events), RecentSources(old(db.events), now), clock, db.subscriptions, db.users, cfg, dayStart)
  {
    var recent := RecentSources(db.events, now);
    RecentSourcesAreValid(db.events, now);
    LocaliseIsLegible(cfg);
    generated, clock := SweepSources(db, recent, Localise(cfg), cfg, now, dayStart);
    processed := |recent|;
  }

  // ---------------------------------------------------------------------------
  // The inbox
  // ---------------------------------------------------------------------------

  /** One inbox entry; `isUserAlert` is `!!alert.userId`. */
  datatype InboxItem = InboxItem(id: nat, parcelId: string, location: string, riskScore: int, band: Band, why: string,
                                 timeWindowHrs: int, smsShort: string, dashboard: string, generatedAt: int, isUserAlert: bool)

  function ItemOf(x: Stored): InboxItem
  {
    var e := x.event;
    InboxItem(x.id, e.parcelId, e.location, e.riskScore, e.band, e.why, e.timeWindowHrs, e.smsShort, e.dashboard,
              e.generatedAt, e.personal.Some?)
  }

  function AtLocations(s: seq<Stored>, locations: seq<string>): (r: seq<Stored>)
    ensures forall x :: x in r <==> x in s && x.event.location in locations
  {
    if s == [] then []
    else
      var last := s[|s| - 1];
      assert s == s[..|s| - 1] + [last];
      AtLocations(s[..|s| - 1], locations) + (if last.event.location in locations then [last] else [])
  }

  /** The events the inbox query selects, newest first, before they are shaped into items. */
  function InboxEvents(events: seq<RiskEvent>, subs: seq<Subscription>, userId: string, limit: nat): seq<Stored>
  {
    var locations := Locations(ActiveOf(subs, userId));
    if |locations| == 0 then []
    else Take(SortByRecency(AtLocations(Numbered(events), locations)), limit)
  }

  /** `getUserAlerts(userId, limit)`; a limit of 0 means no limit. */
  function GetUserAlerts(events: seq<RiskEvent>, subs: seq<Subscription>, userId: string, limit: nat): (items: seq<InboxItem>)
    ensures |items| == |InboxEvents(events, subs, userId, limit)|
    ensures forall k :: 0 <= k < |items| ==> items[k] == ItemOf(InboxEvents(events, subs, userId, limit)[k])
  {
    var selected := InboxEvents(events, subs, userId, limit);
    seq(|selected|, k requires 0 <= k < |selected| => ItemOf(selected[k]))
  }

  /** Matches the inbox's filter: the event's location is one the user actively follows. */
  predicate Followed(e: RiskEvent, subs: seq<Subscription>, userId: string)
  {
    e.location in Locations(ActiveOf(subs, userId))
  }

  /**
   * The inbox holds nothing for a user without active subscriptions, at most
   * `limit` entries otherwise, and lists them newest first.
   */
  lemma InboxIsNewestFirst(events: seq<RiskEvent>, subs: seq<Subscription>, userId: string, limit: nat)
    ensures var items := GetUserAlerts(events, subs, userId, limit);
            && (ActiveOf(subs, userId) == [] ==> items == [])
            && (limit > 0 ==> |items| <= limit)
            && (forall i, j :: 0 <= i < j < |items| ==> items[i].generatedAt >= items[j].generatedAt)
  {
    var items := GetUserAlerts(events, subs, userId, limit);
    var locations := Locations(ActiveOf(subs, userId));
    var selected := InboxEvents(events, subs, userId, limit);
    if |locations| > 0 {
      var sorted := SortByRecency(AtLocations(Numbered(events), locations));
      assert selected <= sorted;
      forall i, j | 0 <= i < j < |items| ensures items[i].generatedAt >= items[j].generatedAt {
        assert selected[i] == sorted[i] && selected[j] == sorted[j];
      }
    }
  }

  /**
   * Each inbox entry is a stored event at a followed location, shown as it
   * is stored, with `isUserAlert` exactly when it was generated for a user.
   */
  lemma InboxShowsFollowedEvents(events: seq<RiskEvent>, subs: seq<Subscription>, userId: string, limit: nat)
    ensures var items := GetUserAlerts(events, subs, userId, limit);
            forall k :: 0 <= k < |items| ==>
              && items[k].id < |events|
              && items[k] == ItemOf(Stored(items[k].id, events[items[k].id]))
              && Followed(events[items[k].id], subs, userId)
              && (items[k].isUserAlert <==> events[items[k].id].personal.Some?)
  {
    var items := GetUserAlerts(events, subs, userId, limit);
    var locations := Locations(ActiveOf(subs, userId));
    var selected := InboxEvents(events, subs, userId, limit);
    if |locations| > 0 {
      var numbered := Numbered(events);
      var matching := AtLocations(numbered, locations);
      var sorted := SortByRecency(matching);
      assert selected <= sorted;
      forall k | 0 <= k < |items|
        ensures items[k].id < |events| && items[k] == ItemOf(Stored(items[k].id, events[items[k].id]))
        ensures Followed(events[items[k].id], subs, userId)
      {
        assert selected[k] == sorted[k];
        assert sorted[k] in sorted;
        SortedMembers(matching, sorted[k]);
        var m :| 0 <= m < |numbered| && numbered[m] == sorted[k];
      }
    }
  }

  /**
   * A stored event at a followed location is left out of the inbox only when
   * the limit was reached, and then it is no newer than the last entry shown.
   */
  lemma InboxMissesOnlyOlder(events: seq<RiskEvent>, subs: seq<Subscription>, userId: string, limit: nat)
    ensures var items := GetUserAlerts(events, subs, userId, limit);
            forall j :: 0 <= j < |events| && Followed(events[j], subs, userId) ==>
              (exists k :: 0 <= k < |items| && items[k].id == j)
              || (limit > 0 && |items| == limit && events[j].generatedAt <= items[limit - 1].generatedAt)
  {
    var items := GetUserAlerts(events, subs, userId, limit);
    var locations := Locations(ActiveOf(subs, userId));
    var selected := InboxEvents(events, subs, userId, limit);
    if |locations| > 0 {
      var numbered := Numbered(events);
      var matching := AtLocations(numbered, locations);
      var sorted := SortByRecency(matching);
      assert selected == Take(sorted, limit);
      forall j | 0 <= j < |events| && Followed(events[j], subs, userId)
        ensures (exists k :: 0 <= k < |items| && items[k].id == j)
                || (limit > 0 && |items| == limit && events[j].generatedAt <= items[limit - 1].generatedAt)
      {
        var x := Stored(j, events[j]);
        assert numbered[j] == x;
        assert x in matching;
        SortedMembers(matching, x);
        var p :| 0 <= p < |sorted| && sorted[p] == x;
        if p < |selected| {
          assert selected[p] == sorted[p];
          assert items[p].id == j;
        } else {
          assert limit > 0 && |selected| == limit;
          assert sorted[limit - 1] == selected[limit - 1];
        }
      }
    }
  }
}
