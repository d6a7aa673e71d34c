/**
 * The documents the core reads and writes (the schemas under BACKEND/src/models) and the
 * in-memory store that stands for the database collections.
 */
module Records {
  import opened Js
  import opened Scoring

  /**
   * A parcel's measurements (the Input collection). Optional fields, and the
   * legacy spellings the code still consults (`name`, `VillageName`, `Rain`,
   * `Tide`, `Exposure`, `areaHa`), may be absent.
   */
  datatype Input = Input(
    id: string,
    parcelName: string,
    legacyName: Option<string>,
    villageName: Option<string>,
    legacyVillageName: Option<string>,
    areaTotal: Option<real>,
    areaHa: Option<real>,
    rain: Option<real>,
    legacyRain: Option<real>,
    tide: Option<real>,
    legacyTide: Option<real>,
    exposure: Option<real>,
    legacyExposure: Option<real>,
    elevScore: Option<real>,
    distScore: Option<real>,
    landCoverScore: Option<real>)

  datatype LossState = Loss | NoLoss

  /**
   * The per-parcel computed document (the Output collection). Stage 1 owns
   * mangScore .. needsReview, stage 2 owns vulnScore; riskScore and riskBand
   * belong to no stage of the pipeline and are never written by it.
   */
  datatype Output = Output(
    mangScore: Option<int>,
    lostArea: real,
    llmAnalysis: string,
    state: LossState,
    extraCarbon: real,
    dropPct: int,
    needsReview: bool,
    vulnScore: Option<int>,
    riskScore: Option<int>,
    riskBand: Option<string>)

  /** What makes a risk event a user alert: the user it was generated for and that user's language. */
  datatype Personalization = Personalization(userId: string, userLanguage: string)

  /**
   * A risk event (the RiskEvent collection): a source computation written by
   * the pipeline (no personalization) or a user alert written by dispatch.
   * `generatedAt` is in milliseconds.
   */
  datatype RiskEvent = RiskEvent(
    sourceComputationId: Option<string>,
    parcelId: string,
    location: string,
    riskScore: int,
    band: Band,
    why: string,
    timeWindowHrs: int,
    audience: seq<string>,
    smsShort: string,
    dashboard: string,
    generatedAt: int,
    personal: Option<Personalization>)

  datatype Subscription = Subscription(userId: string, parcelId: string, location: string, channels: seq<string>, isActive: bool)

  datatype User = User(userId: string, name: string, email: string, language: string, phone: Option<string>, role: Option<string>)

  /** The languages the User and RiskEvent schemas admit. */
  predicate SupportedLanguage(language: string)
  {
    language == "en" || language == "hi" || language == "gu"
  }

  /**
   * What the RiskEvent schema checks on save: the required strings are
   * non-empty, the score lies in [0, 100] and a user alert's language is one
   * of the supported ones.
   */
  predicate SchemaValid(e: RiskEvent)
  {
    && e.parcelId != "" && e.location != "" && e.why != ""
    && e.smsShort != "" && e.dashboard != ""
    && 0 <= e.riskScore <= 100
    && (e.personal.Some? ==> SupportedLanguage(e.personal.value.userLanguage))
  }

  /** The database: the five collections the core touches. */
  class Store {
    var inputs: seq<Input>
    var outputs: map<string, Output>
    var events: seq<RiskEvent>
    var subscriptions: seq<Subscription>
    var users: seq<User>

    /** Every stored event and user passed its schema's validation. */
    ghost predicate Valid()
      reads this
    {
      && (forall i :: 0 <= i < |events| ==> SchemaValid(events[i]))
      && (forall i :: 0 <= i < |users| ==> SupportedLanguage(users[i].language))
    }

    constructor (inputs: seq<Input>, subscriptions: seq<Subscription>, users: seq<User>)
      requires forall i :: 0 <= i < |users| ==> SupportedLanguage(users[i].language)
      ensures Valid()
      ensures this.inputs == inputs && this.subscriptions == subscriptions && this.users == users
      ensures outputs == map[] && events == []
    {
      this.inputs := inputs;
      this.outputs := map[];
      this.events := [];
      this.subscriptions := subscriptions;
      this.users := users;
    }
  }
}
